/**
 * The values the browser dashboard works with, and the pure parts of its logic: the
 * autocomplete entry label, the price, change and conversion texts, the watchlist list
 * operations behind add and remove, and the theme names kept in local storage.
 */
module DashboardValues {
  import opened Wrappers
  import opened Numbers
  import opened Text

  /** One item of the search endpoint's response. */
  datatype SearchItem = SearchItem(symbol: string, name: string)

  /** A rendered autocomplete entry: the text shown, and the symbol a click selects. */
  datatype Suggestion = Suggestion(caption: string, symbol: string)

  /** The price endpoint's response; a field the response lacks is None. */
  datatype PriceData = PriceData(price: Option<Num>, change: Option<Num>, percentChange: Option<Num>)

  /** How the change figure is styled: green when up, red when down, plain otherwise. */
  datatype ChangeStyle = Up | Down | Neutral

  /** A chart as created from a history response: date labels and one series of closes. */
  datatype Chart = Chart(labels: seq<string>, closes: seq<Num>)

  datatype MoverKind = Gainers | Losers

  /** A request issued to the backend, with the parameters it carries. */
  datatype Request =
    | Search(query: string)
    | Info(symbol: string)
    | PriceOf(symbol: string)
    | History(symbol: string, range: string)
    | News(symbol: string)
    | Movers(kind: MoverKind)
    | CurrencyList
    | Conversion(from: string, to: string, amount: string)

  /** A value kept in local storage: plain text, or a serialized list of symbols. */
  datatype StoreValue = Text(text: string) | Symbols(symbols: seq<string>)

  /** An observable side effect of the controller, in the order it happens. */
  datatype Effect =
    | Fetch(request: Request)
    | Write(key: string, value: StoreValue)
    | WatchlistRendered(symbols: seq<string>)
    | ChartDestroyed
    | ChartCreated(chart: Chart)

  const ThemeKey: string := "theme"
  const WatchlistKey: string := "watchlist"
  const DefaultSymbol: string := "AAPL"
  const DefaultRange: string := "1mo"
  const LabelSeparator: string := " - "
  const ConversionFailed: string := "Conversion failed"

  /**
   * The lookup an input event schedules for the search bar's text: none when the text
   * is blank, otherwise one for the text without surrounding white space.
   */
  function QueryFor(value: string): (q: Option<string>)
    ensures q.None? <==> IsBlank(value, JavaScript)
    ensures q.Some? ==> q.value != [] && Trim(q.value, JavaScript) == q.value
    ensures q.Some? ==> q.value == Trim(value, JavaScript)
  {
    if Trim(value, JavaScript) == [] then None
    else
      TrimIdempotent(value, JavaScript);
      Some(Trim(value, JavaScript))
  }

  /** The text of an autocomplete entry: `symbol - name`. */
  function SuggestionLabel(item: SearchItem): (caption: string)
    ensures |caption| == |item.symbol| + |LabelSeparator| + |item.name|
    ensures caption[..|item.symbol|] == item.symbol
    ensures caption[|item.symbol|..|item.symbol| + |LabelSeparator|] == LabelSeparator
    ensures caption[|item.symbol| + |LabelSeparator|..] == item.name
  {
    item.symbol + LabelSeparator + item.name
  }

  /** The entry rendered for one search result: its label, and a click selects its symbol. */
  function SuggestionFor(item: SearchItem): (s: Suggestion)
    ensures s.symbol == item.symbol
    ensures s.caption == SuggestionLabel(item)
  {
    Suggestion(SuggestionLabel(item), item.symbol)
  }

  /** A template literal `${x}` of a possibly missing number. */
  function Interpolate(x: Option<Num>): (t: string)
    ensures x.Some? ==> t == x.value.text
    ensures x.None? ==> t == "undefined"
  {
    match x
    case Some(n) => n.text
    case None => "undefined"
  }

  /** `data.price ?? "-"`: the price as printed, or a dash when there is none. */
  function PriceText(price: Option<Num>): (t: string)
    ensures price.None? ==> t == "-"
    ensures price.Some? ==> t == price.value.text
  {
    if price.Some? then price.value.text else "-"
  }

  /** The change text: `change (percent%)` when the change is a non-zero number, else empty. */
  function ChangeText(change: Option<Num>, percentChange: Option<Num>): (t: string)
    ensures t != [] <==> change.Some? && change.value.Truthy()
    ensures t != [] ==> t == change.value.text + " (" + Interpolate(percentChange) + "%)"
  {
    if change.Some? && change.value.Truthy() then
      change.value.text + " (" + Interpolate(percentChange) + "%)"
    else ""
  }

  /** The change styling: up when the change is above zero, down when below, else neutral. */
  function StyleOf(change: Option<Num>): (s: ChangeStyle)
    ensures s == Up <==> change.Some? && change.value.sign == Positive
    ensures s == Down <==> change.Some? && change.value.sign == Negative
  {
    if change.Some? && change.value.sign == Positive then Up
    else if change.Some? && change.value.sign == Negative then Down
    else Neutral
  }

  /** The change text is shown exactly when the change is styled up or down. */
  lemma ChangeShownIffStyled(change: Option<Num>, percentChange: Option<Num>)
    ensures ChangeText(change, percentChange) != [] <==> StyleOf(change) != Neutral
  {
  }

  /** A falling price of 150 by 2 (1.3 per cent) reads "-2 (-1.3%)", styled down. */
  lemma FallingPriceExample()
    ensures var data := PriceData(Some(Num("150", Positive)), Some(Num("-2", Negative)), Some(Num("-1.3", Negative)));
      && PriceText(data.price) == "150"
      && ChangeText(data.change, data.percentChange) == "-2 (-1.3%)"
      && StyleOf(data.change) == Down
  {
  }

  /** The converter's result line: `amount from = result to`, or the failure message. */
  function ConversionMessage(amount: string, from: string, to: string, result: Option<Num>): (m: string)
    ensures result.Some? && result.value.Truthy() ==>
      m == amount + " " + from + " = " + result.value.text + " " + to
    ensures !(result.Some? && result.value.Truthy()) ==> m == ConversionFailed
  {
    if result.Some? && result.value.Truthy() then
      amount + " " + from + " = " + result.value.text + " " + to
    else ConversionFailed
  }

  /**
   * The failure message is shown exactly when the result is missing or zero: no result
   * line can be mistaken for it, whatever the amount and currency codes are.
   */
  lemma ConversionFailedIffNoResult(amount: string, from: string, to: string, result: Option<Num>)
    ensures ConversionMessage(amount, from, to, result) == ConversionFailed
        <==> !(result.Some? && result.value.Truthy())
  {
    if result.Some? && result.value.Truthy() {
      var m := ConversionMessage(amount, from, to, result);
      var k := |amount| + 1 + |from| + 1;
      assert m[k] == '=';
      assert forall j :: 0 <= j < |ConversionFailed| ==> ConversionFailed[j] != '=';
    }
  }

  /** `list.includes(symbol)` guards `list.push(symbol)`: the watchlist after an add. */
  function WithSymbol(list: seq<string>, symbol: string): (r: seq<string>)
    ensures symbol in r
    ensures symbol in list ==> r == list
    ensures symbol !in list ==> r == list + [symbol]
  {
    if symbol in list then list else list + [symbol]
  }

  /** `list.filter((s) => s !== symbol)`: the watchlist after a remove. */
  function WithoutSymbol(list: seq<string>, symbol: string): (r: seq<string>)
    ensures |r| <= |list|
    ensures symbol !in r
    ensures multiset(r) == multiset(list)[symbol := 0]
  {
    if list == [] then []
    else
      var rest := WithoutSymbol(list[1..], symbol);
      assert list == [list[0]] + list[1..];
      if list[0] == symbol then rest else [list[0]] + rest
  }

  /** Removing keeps the other symbols in their relative order. */
  lemma {:induction false} WithoutSymbolAppend(a: seq<string>, b: seq<string>, symbol: string)
    ensures WithoutSymbol(a + b, symbol) == WithoutSymbol(a, symbol) + WithoutSymbol(b, symbol)
    decreases |a|
  {
    if a == [] {
      assert a + b == b;
    } else {
      assert (a + b)[0] == a[0];
      assert (a + b)[1..] == a[1..] + b;
      WithoutSymbolAppend(a[1..], b, symbol);
    }
  }

  /** Removing an absent symbol leaves the list as it was. */
  lemma {:induction false} WithoutAbsentSymbol(list: seq<string>, symbol: string)
    requires symbol !in list
    ensures WithoutSymbol(list, symbol) == list
    decreases |list|
  {
    if list != [] {
      WithoutAbsentSymbol(list[1..], symbol);
      assert [list[0]] + list[1..] == list;
    }
  }

  predicate NoDuplicates(list: seq<string>) {
    forall i, j :: 0 <= i < j < |list| ==> list[i] != list[j]
  }

  /** Adding twice is adding once. */
  lemma AddIdempotent(list: seq<string>, symbol: string)
    ensures WithSymbol(WithSymbol(list, symbol), symbol) == WithSymbol(list, symbol)
  {
  }

  /** Adding keeps a duplicate-free watchlist duplicate-free. */
  lemma AddKeepsNoDuplicates(list: seq<string>, symbol: string)
    requires NoDuplicates(list)
    ensures NoDuplicates(WithSymbol(list, symbol))
  {
  }

  /** Removing keeps a duplicate-free watchlist duplicate-free. */
  lemma {:induction false} RemoveKeepsNoDuplicates(list: seq<string>, symbol: string)
    requires NoDuplicates(list)
    ensures NoDuplicates(WithoutSymbol(list, symbol))
    decreases |list|
  {
    if list != [] {
      RemoveKeepsNoDuplicates(list[1..], symbol);
      var rest := WithoutSymbol(list[1..], symbol);
      if list[0] != symbol {
        assert list[0] !in multiset(list[1..]) by {
          assert list[0] !in list[1..];
        }
        assert list[0] !in rest by {
          assert list[0] !in multiset(rest);
        }
      }
    }
  }

  /** Removing what was just added restores a list that did not hold it. */
  lemma RemoveUndoesAdd(list: seq<string>, symbol: string)
    requires symbol !in list
    ensures WithoutSymbol(WithSymbol(list, symbol), symbol) == list
  {
    WithoutSymbolAppend(list, [symbol], symbol);
    WithoutAbsentSymbol(list, symbol);
    assert WithoutSymbol([symbol], symbol) == [];
  }

  /** The text `setTheme` and the toggle store under the theme key. */
  function ThemeName(dark: bool): (name: string)
    ensures name == "dark" <==> dark
    ensures !dark ==> name == "light"
  {
    if dark then "dark" else "light"
  }
}
