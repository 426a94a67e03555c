/**
 * The dashboard controller of the browser page: the module variables `currentSymbol`,
 * `currentRange`, `autocompleteTimeout` and `chart`, the parts of the page it writes,
 * local storage, and a log of the side effects it performs (requests issued, storage
 * writes, watchlist re-renders, charts destroyed and created).
 *
 * Event handlers are methods. A timer firing and a response arriving are methods too,
 * called whenever the environment chooses; nothing about time is modelled.
 */
module Dashboard {
  import opened Wrappers
  import opened Numbers
  import opened Text
  import opened DashboardValues

  /** Where a click lands, as far as the outside-click listener is concerned. */
  datatype ClickTarget = SearchBar | InSuggestionList | Elsewhere

  /** Everything the controller holds or shows, as one value. */
  datatype Screen = Screen(
    currentSymbol: string,
    currentRange: string,
    pendingLookup: Option<string>,
    searchText: string,
    suggestions: seq<Suggestion>,
    suggestionsHidden: bool,
    store: map<string, StoreValue>,
    log: seq<Effect>,
    watchlistView: seq<string>,
    dark: bool,
    chart: Option<Chart>,
    liveCharts: nat,
    priceText: string,
    changeText: string,
    changeStyle: ChangeStyle,
    conversionText: string)

  class Controller {
    /** The symbol every panel shows. */
    var currentSymbol: string
    /** The chart range passed with every history request. */
    var currentRange: string
    /** The scheduled autocomplete lookup, with the query it will send, if any. */
    var pendingLookup: Option<string>
    /** The text of the search bar. */
    var searchText: string
    /** The autocomplete entries, and whether the list is hidden. */
    var suggestions: seq<Suggestion>
    var suggestionsHidden: bool
    /** Local storage. */
    var store: map<string, StoreValue>
    /** Every side effect performed so far, oldest first. */
    var log: seq<Effect>
    /** The symbols shown in the watchlist panel. */
    var watchlistView: seq<string>
    /** Whether the page carries the dark theme. */
    var dark: bool
    /** The chart instance the module variable refers to, and how many charts are alive. */
    var chart: Option<Chart>
    var liveCharts: nat
    /** The price panel and the converter's result line. */
    var priceText: string
    var changeText: string
    var changeStyle: ChangeStyle
    var conversionText: string

    function State(): Screen
      reads this
    {
      Screen(currentSymbol, currentRange, pendingLookup, searchText, suggestions, suggestionsHidden,
             store, log, watchlistView, dark, chart, liveCharts, priceText, changeText, changeStyle,
             conversionText)
    }

    /**
     * The stored watchlist is a symbol list, at most one chart is alive and it is the one
     * the module variable holds, and a scheduled lookup carries a trimmed, non-empty query.
     */
    ghost predicate Valid()
      reads this
    {
      && (WatchlistKey in store ==> store[WatchlistKey].Symbols?)
      && liveCharts == (if chart.Some? then 1 else 0)
      && (pendingLookup.Some? ==> QueryFor(pendingLookup.value) == pendingLookup)
    }

    /** The stored watchlist as `getWatchlist` reads it. */
    function Watchlist(): (list: seq<string>)
      reads this
      requires Valid()
      ensures WatchlistKey !in store ==> list == []
      ensures WatchlistKey in store ==> list == store[WatchlistKey].symbols
    {
      if WatchlistKey in store then store[WatchlistKey].symbols else []
    }

    /**
     * Loading the script: the module variables take their initial values, the suggestion
     * list starts hidden, and the stored theme is applied when it is "dark".
     */
    constructor (initialStore: map<string, StoreValue>)
      requires WatchlistKey in initialStore ==> initialStore[WatchlistKey].Symbols?
      ensures Valid()
      ensures var isDark := ThemeKey in initialStore && initialStore[ThemeKey] == Text("dark");
        State() == Screen(DefaultSymbol, DefaultRange, None, "", [], true, initialStore,
                          if isDark then [Write(ThemeKey, Text("dark"))] else [],
                          [], isDark, None, 0, "", "", Neutral, "")
    {
      currentSymbol, currentRange := DefaultSymbol, DefaultRange;
      pendingLookup, searchText := None, "";
      suggestions, suggestionsHidden := [], true;
      store, log, watchlistView := initialStore, [], [];
      dark, chart, liveCharts := false, None, 0;
      priceText, changeText, changeStyle, conversionText := "", "", Neutral, "";
      new;
      InitTheme();
    }

    /** `setTheme(dark)`: set the theme flag and store its name. */
    method SetTheme(isDark: bool)
      requires Valid()
      modifies this
      ensures Valid()
      ensures State() == old(State()).(
        dark := isDark,
        store := old(store)[ThemeKey := Text(ThemeName(isDark))],
        log := old(log) + [Write(ThemeKey, Text(ThemeName(isDark)))])
    {
      dark := isDark;
      store := store[ThemeKey := Text(ThemeName(isDark))];
      log := log + [Write(ThemeKey, Text(ThemeName(isDark)))];
    }

    /** The theme button: flip the theme flag and store the new theme's name. */
    method ToggleTheme()
      requires Valid()
      modifies this
      ensures Valid()
      ensures State() == old(State()).(
        dark := !old(dark),
        store := old(store)[ThemeKey := Text(ThemeName(!old(dark)))],
        log := old(log) + [Write(ThemeKey, Text(ThemeName(!old(dark))))])
    {
      var isDark := !dark;
      dark := isDark;
      store := store[ThemeKey := Text(ThemeName(isDark))];
      log := log + [Write(ThemeKey, Text(ThemeName(isDark)))];
    }

    /** `initTheme()`: apply the dark theme when it is the stored one; otherwise do nothing. */
    method InitTheme()
      requires Valid()
      modifies this
      ensures Valid()
      ensures ThemeKey in old(store) && old(store)[ThemeKey] == Text("dark") ==>
        State() == old(State()).(dark := true, log := old(log) + [Write(ThemeKey, Text("dark"))])
      ensures !(ThemeKey in old(store) && old(store)[ThemeKey] == Text("dark")) ==>
        State() == old(State())
    {
      if ThemeKey in store && store[ThemeKey] == Text("dark") {
        SetTheme(true);
        assert store == old(store);
      }
    }

    /**
     * The search bar's input handler: cancel the scheduled lookup; hide the list when the
     * trimmed text is empty, otherwise schedule one lookup for the trimmed text.
     */
    method OnSearchInput(value: string)
      requires Valid()
      modifies this
      ensures Valid()
      ensures State() == old(State()).(
        searchText := value,
        pendingLookup := QueryFor(value),
        suggestionsHidden := QueryFor(value).None? || old(suggestionsHidden))
    {
      searchText := value;
      pendingLookup := None;
      var q := QueryFor(value);
      if q.None? {
        suggestionsHidden := true;
      } else {
        assert QueryFor(q.value) == q;
        pendingLookup := q;
      }
    }

    /** The debounce timer firing: the scheduled lookup issues its search request. */
    method FireLookup()
      requires Valid()
      modifies this
      ensures Valid()
      ensures old(pendingLookup).None? ==> State() == old(State())
      ensures old(pendingLookup).Some? ==>
        State() == old(State()).(pendingLookup := None, log := old(log) + [Fetch(Search(old(pendingLookup).value))])
    {
      if pendingLookup.Some? {
        var q := pendingLookup.value;
        pendingLookup := None;
        log := log + [Fetch(Search(q))];
      }
    }

    /**
     * A search response: the list is emptied and refilled with one entry per item in
     * response order, and hidden exactly when the response is empty.
     */
    method OnSearchResponse(data: seq<SearchItem>)
      requires Valid()
      modifies this
      ensures Valid()
      ensures |suggestions| == |data|
      ensures forall k :: 0 <= k < |data| ==> suggestions[k] == SuggestionFor(data[k])
      ensures State() == old(State()).(suggestions := suggestions, suggestionsHidden := |data| == 0)
    {
      suggestions := [];
      var i := 0;
      while i < |data|
        invariant 0 <= i <= |data|
        invariant |suggestions| == i
        invariant forall k :: 0 <= k < i ==> suggestions[k] == SuggestionFor(data[k])
        invariant State() == old(State()).(suggestions := suggestions)
      {
        suggestions := suggestions + [SuggestionFor(data[i])];
        i := i + 1;
      }
      suggestionsHidden := |data| == 0;
    }

    /** The document's click listener: a click outside the search bar and the list hides the list. */
    method OnDocumentClick(target: ClickTarget)
      requires Valid()
      modifies this
      ensures Valid()
      ensures State() == old(State()).(suggestionsHidden := old(suggestionsHidden) || target == Elsewhere)
    {
      if target == Elsewhere {
        suggestionsHidden := true;
      }
    }

    /** `fetchInfo()`: request the company info of the current symbol. */
    method FetchInfo()
      requires Valid()
      modifies this
      ensures Valid()
      ensures State() == old(State()).(log := old(log) + [Fetch(Info(old(currentSymbol)))])
    {
      log := log + [Fetch(Info(currentSymbol))];
    }

    /** `fetchPrice()`: request the price of the current symbol. */
    method FetchPrice()
      requires Valid()
      modifies this
      ensures Valid()
      ensures State() == old(State()).(log := old(log) + [Fetch(PriceOf(old(currentSymbol)))])
    {
      log := log + [Fetch(PriceOf(currentSymbol))];
    }

    /** `fetchHistory()`: request the history of the current symbol over the current range. */
    method FetchHistory()
      requires Valid()
      modifies this
      ensures Valid()
      ensures State() == old(State()).(log := old(log) + [Fetch(History(old(currentSymbol), old(currentRange)))])
    {
      log := log + [Fetch(History(currentSymbol, currentRange))];
    }

    /** `fetchNews()`: request the headlines of the current symbol. */
    method FetchNews()
      requires Valid()
      modifies this
      ensures Valid()
      ensures State() == old(State()).(log := old(log) + [Fetch(News(old(currentSymbol)))])
    {
      log := log + [Fetch(News(currentSymbol))];
    }

    /** `updateWatchlistUI()`: rebuild the watchlist panel from the stored list. */
    method UpdateWatchlistUI()
      requires Valid()
      modifies this
      ensures Valid()
      ensures watchlistView == old(Watchlist())
      ensures State() == old(State()).(
        watchlistView := old(Watchlist()),
        log := old(log) + [WatchlistRendered(old(Watchlist()))])
    {
      var list := Watchlist();
      watchlistView := [];
      var i := 0;
      while i < |list|
        invariant 0 <= i <= |list|
        invariant watchlistView == list[..i]
        invariant State() == old(State()).(watchlistView := watchlistView)
      {
        watchlistView := watchlistView + [list[i]];
        i := i + 1;
      }
      log := log + [WatchlistRendered(list)];
    }

    /**
     * `updateAll()`: request info, price, history and news for the current symbol, in that
     * order, then re-render the watchlist.
     */
    method UpdateAll()
      requires Valid()
      modifies this
      ensures Valid()
      ensures var s := old(currentSymbol);
        State() == old(State()).(
          watchlistView := old(Watchlist()),
          log := old(log) + [Fetch(Info(s)), Fetch(PriceOf(s)), Fetch(History(s, old(currentRange))),
                             Fetch(News(s)), WatchlistRendered(old(Watchlist()))])
    {
      FetchInfo();
      FetchPrice();
      FetchHistory();
      FetchNews();
      UpdateWatchlistUI();
    }

    /**
     * `selectStock(symbol)`: make `symbol` current, show it in the search bar, hide the
     * list, and refresh every panel for it.
     */
    method SelectStock(symbol: string)
      requires Valid()
      modifies this
      ensures Valid()
      ensures currentSymbol == symbol && searchText == symbol && suggestionsHidden
      ensures State() == old(State()).(
        currentSymbol := symbol,
        searchText := symbol,
        suggestionsHidden := true,
        watchlistView := old(Watchlist()),
        log := old(log) + [Fetch(Info(symbol)), Fetch(PriceOf(symbol)), Fetch(History(symbol, old(currentRange))),
                           Fetch(News(symbol)), WatchlistRendered(old(Watchlist()))])
    {
      currentSymbol := symbol;
      searchText := symbol;
      suggestionsHidden := true;
      UpdateAll();
    }

    /** A click on an autocomplete entry selects its symbol. */
    method ClickSuggestion(i: nat)
      requires Valid() && i < |suggestions|
      modifies this
      ensures Valid()
      ensures var symbol := old(suggestions[i].symbol);
        State() == old(State()).(
          currentSymbol := symbol,
          searchText := symbol,
          suggestionsHidden := true,
          watchlistView := old(Watchlist()),
          log := old(log) + [Fetch(Info(symbol)), Fetch(PriceOf(symbol)), Fetch(History(symbol, old(currentRange))),
                             Fetch(News(symbol)), WatchlistRendered(old(Watchlist()))])
    {
      SelectStock(suggestions[i].symbol);
    }

    /** A price response: the price, the change text and the change styling. */
    method OnPriceResponse(data: PriceData)
      requires Valid()
      modifies this
      ensures Valid()
      ensures State() == old(State()).(
        priceText := PriceText(data.price),
        changeText := ChangeText(data.change, data.percentChange),
        changeStyle := StyleOf(data.change))
    {
      priceText := PriceText(data.price);
      changeText := ChangeText(data.change, data.percentChange);
      changeStyle := StyleOf(data.change);
    }

    /**
     * A history response: the chart held so far, if any, is destroyed before the new one
     * is created, so exactly one chart is alive afterwards.
     */
    method OnHistoryResponse(dates: seq<string>, closes: seq<Num>)
      requires Valid()
      modifies this
      ensures Valid()
      ensures liveCharts == 1
      ensures State() == old(State()).(
        chart := Some(Chart(dates, closes)),
        liveCharts := 1,
        log := old(log) + (if old(chart).Some? then [ChartDestroyed] else []) + [ChartCreated(Chart(dates, closes))])
    {
      if chart.Some? {
        liveCharts := liveCharts - 1;
        log := log + [ChartDestroyed];
      }
      var created := Chart(dates, closes);
      chart := Some(created);
      liveCharts := liveCharts + 1;
      log := log + [ChartCreated(created)];
    }

    /** A range button: set the range and request the history only. */
    method ClickRange(range: string)
      requires Valid()
      modifies this
      ensures Valid()
      ensures State() == old(State()).(
        currentRange := range,
        log := old(log) + [Fetch(History(old(currentSymbol), range))])
    {
      currentRange := range;
      FetchHistory();
    }

    /** The interval timer: request the price of whatever symbol is current when it fires. */
    method PriceTick()
      requires Valid()
      modifies this
      ensures Valid()
      ensures State() == old(State()).(log := old(log) + [Fetch(PriceOf(old(currentSymbol)))])
    {
      FetchPrice();
    }

    /** `setWatchlist(list)`: store the list under the watchlist key. */
    method SetWatchlist(list: seq<string>)
      requires Valid()
      modifies this
      ensures Valid()
      ensures Watchlist() == list
      ensures State() == old(State()).(
        store := old(store)[WatchlistKey := Symbols(list)],
        log := old(log) + [Write(WatchlistKey, Symbols(list))])
    {
      store := store[WatchlistKey := Symbols(list)];
      log := log + [Write(WatchlistKey, Symbols(list))];
    }

    /**
     * `addToWatchlist(symbol)`: a symbol already listed changes nothing at all; any other
     * is appended, the list stored, and the panel re-rendered.
     */
    method AddToWatchlist(symbol: string)
      requires Valid()
      modifies this
      ensures Valid()
      ensures Watchlist() == WithSymbol(old(Watchlist()), symbol)
      ensures symbol in old(Watchlist()) ==> State() == old(State())
      ensures symbol !in old(Watchlist()) ==>
        var list := old(Watchlist()) + [symbol];
        State() == old(State()).(
          store := old(store)[WatchlistKey := Symbols(list)],
          watchlistView := list,
          log := old(log) + [Write(WatchlistKey, Symbols(list)), WatchlistRendered(list)])
    {
      var list := Watchlist();
      if symbol !in list {
        list := list + [symbol];
        SetWatchlist(list);
        UpdateWatchlistUI();
      }
    }

    /**
     * `removeFromWatchlist(symbol)`: drop every occurrence of the symbol, store the list and
     * re-render the panel, whether or not the symbol was listed.
     */
    method RemoveFromWatchlist(symbol: string)
      requires Valid()
      modifies this
      ensures Valid()
      ensures symbol !in Watchlist() && symbol !in watchlistView
      ensures var list := WithoutSymbol(old(Watchlist()), symbol);
        State() == old(State()).(
          store := old(store)[WatchlistKey := Symbols(list)],
          watchlistView := list,
          log := old(log) + [Write(WatchlistKey, Symbols(list)), WatchlistRendered(list)])
    {
      var list := WithoutSymbol(Watchlist(), symbol);
      SetWatchlist(list);
      UpdateWatchlistUI();
    }

    /** The "add to watchlist" button adds the current symbol. */
    method ClickAddWatchlist()
      requires Valid()
      modifies this
      ensures Valid()
      ensures currentSymbol in Watchlist()
      ensures Watchlist() == WithSymbol(old(Watchlist()), old(currentSymbol))
      ensures old(currentSymbol) in old(Watchlist()) ==> State() == old(State())
      ensures old(currentSymbol) !in old(Watchlist()) ==>
        var list := old(Watchlist()) + [old(currentSymbol)];
        State() == old(State()).(
          store := old(store)[WatchlistKey := Symbols(list)],
          watchlistView := list,
          log := old(log) + [Write(WatchlistKey, Symbols(list)), WatchlistRendered(list)])
    {
      AddToWatchlist(currentSymbol);
    }

    /** A click on an entry of the gainers or losers list selects that entry's symbol. */
    method ClickMoverEntry(symbol: string)
      requires Valid()
      modifies this
      ensures Valid()
      ensures State() == old(State()).(
        currentSymbol := symbol,
        searchText := symbol,
        suggestionsHidden := true,
        watchlistView := old(Watchlist()),
        log := old(log) + [Fetch(Info(symbol)), Fetch(PriceOf(symbol)), Fetch(History(symbol, old(currentRange))),
                           Fetch(News(symbol)), WatchlistRendered(old(Watchlist()))])
    {
      SelectStock(symbol);
    }

    /** A click on a watchlist entry selects its symbol. */
    method ClickWatchlistEntry(i: nat)
      requires Valid() && i < |watchlistView|
      modifies this
      ensures Valid()
      ensures var symbol := old(watchlistView[i]);
        State() == old(State()).(
          currentSymbol := symbol,
          searchText := symbol,
          suggestionsHidden := true,
          watchlistView := old(Watchlist()),
          log := old(log) + [Fetch(Info(symbol)), Fetch(PriceOf(symbol)), Fetch(History(symbol, old(currentRange))),
                             Fetch(News(symbol)), WatchlistRendered(old(Watchlist()))])
    {
      SelectStock(watchlistView[i]);
    }

    /**
     * A click on a watchlist entry's delete button removes its symbol; the click does not
     * propagate, so the entry is not selected and the outside-click listener does not run.
     */
    method ClickWatchlistDelete(i: nat)
      requires Valid() && i < |watchlistView|
      modifies this
      ensures Valid()
      ensures var list := WithoutSymbol(old(Watchlist()), old(watchlistView[i]));
        State() == old(State()).(
          store := old(store)[WatchlistKey := Symbols(list)],
          watchlistView := list,
          log := old(log) + [Write(WatchlistKey, Symbols(list)), WatchlistRendered(list)])
    {
      RemoveFromWatchlist(watchlistView[i]);
    }

    /** `fetchMovers(type)`: request the top gainers or losers. */
    method FetchMovers(kind: MoverKind)
      requires Valid()
      modifies this
      ensures Valid()
      ensures State() == old(State()).(log := old(log) + [Fetch(Movers(kind))])
    {
      log := log + [Fetch(Movers(kind))];
    }

    /** `fetchCurrencies()`: request the list of supported currencies. */
    method FetchCurrencies()
      requires Valid()
      modifies this
      ensures Valid()
      ensures State() == old(State()).(log := old(log) + [Fetch(CurrencyList)])
    {
      log := log + [Fetch(CurrencyList)];
    }

    /** The convert button: request a conversion of the amount between the chosen currencies. */
    method ClickConvert(amount: string, from: string, to: string)
      requires Valid()
      modifies this
      ensures Valid()
      ensures State() == old(State()).(log := old(log) + [Fetch(Conversion(from, to, amount))])
    {
      log := log + [Fetch(Conversion(from, to, amount))];
    }

    /** A conversion response, for the amount and currencies read when the button was clicked. */
    method OnConversionResponse(amount: string, from: string, to: string, result: Option<Num>)
      requires Valid()
      modifies this
      ensures Valid()
      ensures State() == old(State()).(conversionText := ConversionMessage(amount, from, to, result))
    {
      conversionText := ConversionMessage(amount, from, to, result);
    }

    /** The page's load handler: refresh everything, then request the gainers and the currencies. */
    method OnLoad()
      requires Valid()
      modifies this
      ensures Valid()
      ensures var s := old(currentSymbol);
        State() == old(State()).(
          watchlistView := old(Watchlist()),
          log := old(log) + [Fetch(Info(s)), Fetch(PriceOf(s)), Fetch(History(s, old(currentRange))),
                             Fetch(News(s)), WatchlistRendered(old(Watchlist())),
                             Fetch(Movers(Gainers)), Fetch(CurrencyList)])
    {
      UpdateAll();
      FetchMovers(Gainers);
      FetchCurrencies();
    }

    /**
     * Input events typed in quick succession, before the debounce timer fires: the search
     * bar holds the last text, and only the last text's lookup is still scheduled.
     */
    method TypeBurst(values: seq<string>)
      requires Valid() && |values| > 0
      modifies this
      ensures Valid()
      ensures searchText == values[|values| - 1]
      ensures pendingLookup == QueryFor(values[|values| - 1])
      ensures suggestionsHidden == HiddenAfterInputs(old(suggestionsHidden), values)
      ensures State() == old(State()).(
        searchText := searchText,
        pendingLookup := pendingLookup,
        suggestionsHidden := suggestionsHidden)
    {
      var i := 0;
      while i < |values|
        invariant 0 <= i <= |values|
        invariant Valid()
        invariant i > 0 ==> searchText == values[i - 1]
        invariant i > 0 ==> pendingLookup == QueryFor(values[i - 1])
        invariant suggestionsHidden == HiddenAfterInputs(old(suggestionsHidden), values[..i])
        invariant State() == old(State()).(
          searchText := searchText,
          pendingLookup := pendingLookup,
          suggestionsHidden := suggestionsHidden)
      {
        assert values[..i + 1][..i] == values[..i];
        OnSearchInput(values[i]);
        i := i + 1;
      }
      assert values[..i] == values;
    }

    /**
     * A burst of input events followed by a pause long enough for the debounce timer to
     * fire: at most one search is issued, for the last text, trimmed.
     */
    method TypeThenPause(values: seq<string>)
      requires Valid() && |values| > 0
      modifies this
      ensures Valid()
      ensures searchText == values[|values| - 1]
      ensures pendingLookup == None
      ensures var q := QueryFor(values[|values| - 1]);
        log == old(log) + (if q.None? then [] else [Fetch(Search(q.value))])
      ensures suggestionsHidden == HiddenAfterInputs(old(suggestionsHidden), values)
      ensures State() == old(State()).(
        searchText := searchText,
        pendingLookup := None,
        log := log,
        suggestionsHidden := suggestionsHidden)
    {
      TypeBurst(values);
      FireLookup();
    }
  }

  /**
   * Whether the suggestion list is hidden after input events with the texts `values`,
   * starting from `hidden`: each blank text hides it, and no input event shows it.
   */
  function HiddenAfterInputs(hidden: bool, values: seq<string>): bool {
    if values == [] then hidden
    else HiddenAfterInputs(hidden, values[..|values| - 1]) || IsBlank(values[|values| - 1], JavaScript)
  }

  /** After a burst of input events the list is hidden exactly when it was, or some text was blank. */
  lemma {:induction false} HiddenAfterSomeBlankInput(hidden: bool, values: seq<string>)
    ensures HiddenAfterInputs(hidden, values) <==>
      hidden || exists j :: 0 <= j < |values| && IsBlank(values[j], JavaScript)
    decreases |values|
  {
    if values != [] {
      var init := values[..|values| - 1];
      HiddenAfterSomeBlankInput(hidden, init);
      assert forall j :: 0 <= j < |init| ==> init[j] == values[j];
    }
  }
}
