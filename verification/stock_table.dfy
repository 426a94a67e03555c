/**
 * The server side of the price table: the form handler that turns the comma-separated
 * symbol field into a list, and the resolution of each symbol to one table row through
 * yfinance, tried as given and then on the National Stock Exchange of India.
 *
 * yfinance is not part of this model: a lookup is an oracle `lookup: string -> Lookup`
 * that says, for the ticker asked about, how the library call ended.
 */
module StockTable {
  import opened Wrappers
  import opened Text
  import opened Numbers

  /** The placeholder written into both Price and Currency when no lookup succeeded. */
  const NotAvailable: string := "N/A"

  const BlankFieldMessage: string := "Please enter at least one stock symbol."

  /** Appended to a symbol without an exchange suffix for the second attempt. */
  const IndianSuffix: string := ".NS"

  /** Exchange suffixes after which a symbol is looked up as written and only so. */
  function KnownSuffixes(): (suffixes: seq<string>)
    ensures |suffixes| == 37 && suffixes[0] == IndianSuffix
    ensures forall k :: 0 <= k < |suffixes| ==> |suffixes[k]| >= 2 && suffixes[k][0] == '.'
  {
    [
    ".NS", ".BO", ".AX", ".L", ".TO", ".V", ".SI", ".HK", ".KS", ".KQ", ".TW", ".SS", ".SZ",
    ".F", ".DE", ".PA", ".MI", ".ST", ".HE", ".CO", ".OL", ".MC", ".SW", ".PR", ".IR", ".TA",
    ".VI", ".SA", ".ME", ".IS", ".BK", ".TWO", ".T", ".NZ", ".SG", ".JK", ".B"]
  }

  /** How one yfinance lookup of a ticker ends. */
  datatype Lookup =
    | HistoryFailed                                // creating the ticker or reading its history raised
    | NoData                                       // the one-day history is empty
    | InfoFailed(close: Num)                       // a last close exists, but reading `info` raised
    | Quote(close: Num, currency: Option<string>)  // the last close, and `info`'s currency if it has one

  /** A successful lookup: the last close and the currency text shown for it. */
  datatype Priced = Priced(close: Num, currency: string)

  datatype PriceCell = Amount(value: Num) | NA

  /** One row of the result table. */
  datatype Row = Row(symbol: string, price: PriceCell, currency: string)

  /** One symbol's row together with the tickers looked up for it, in the order asked. */
  datatype Resolution = Resolution(row: Row, tried: seq<string>)

  datatype HttpMethod = Get | Post

  /** What the page is rendered with: a table of rows, an error message, or neither. */
  datatype Page = Page(rows: Option<seq<Row>>, error: Option<string>)

  /**
   * Whether a lookup counts as a success. Every way of raising and an empty history
   * count as failure; a missing currency is shown as "N/A".
   */
  function Answer(o: Lookup): (a: Option<Priced>)
    ensures a.Some? <==> o.Quote?
    ensures a.Some? ==> a.value.close == o.close
    ensures a.Some? && o.currency.Some? ==> a.value.currency == o.currency.value
    ensures a.Some? && o.currency.None? ==> a.value.currency == NotAvailable
  {
    match o
    case Quote(close, currency) => Some(Priced(close, currency.GetOr(NotAvailable)))
    case _ => None
  }

  /** `symbol.strip().upper()`. */
  function Normalize(symbol: string): (n: string)
    ensures |n| <= |symbol|
    ensures n == [] <==> IsBlank(symbol, Python)
  {
    Upper(Trim(symbol, Python))
  }

  /**
   * A normalized symbol is no longer than the input, empty only for a blank input, has no
   * white space at either end and no lower-case ASCII letter.
   */
  lemma NormalizedShape(symbol: string)
    ensures var n := Normalize(symbol);
      && |n| <= |symbol|
      && (n == [] <==> IsBlank(symbol, Python))
      && (n != [] ==> !IsWhitespace(n[0], Python) && !IsWhitespace(n[|n| - 1], Python))
      && (forall j :: 0 <= j < |n| ==> !('a' <= n[j] <= 'z'))
  {
    var t := Trim(symbol, Python);
    UpperPointwise(t);
    if t != [] {
      assert Upper(t)[0] == UpperChar(t[0]);
      assert Upper(t)[|t| - 1] == UpperChar(t[|t| - 1]);
    }
  }

  /** Normalizing a normalized symbol changes nothing. */
  lemma NormalizeIdempotent(symbol: string)
    ensures Normalize(Normalize(symbol)) == Normalize(symbol)
  {
    var t := Trim(symbol, Python);
    var n := Upper(t);
    NormalizedShape(symbol);
    assert LeadingBlanks(n, Python) == 0;
    assert Trim(n, Python) == n;
    UpperIdempotent(t);
  }

  /** `any(symbol.endswith(suf) for suf in known_suffixes)`. */
  predicate HasKnownSuffix(symbol: string)
    ensures EndsWith(symbol, IndianSuffix) ==> HasKnownSuffix(symbol)
    ensures HasKnownSuffix(symbol) ==> '.' in symbol
  {
    var suffixes := KnownSuffixes();
    assert EndsWith(symbol, IndianSuffix) ==> EndsWith(symbol, suffixes[0]);
    assert forall k :: 0 <= k < |suffixes| && EndsWith(symbol, suffixes[k]) ==>
      symbol[|symbol| - |suffixes[k]|] == '.';
    exists k :: 0 <= k < |suffixes| && EndsWith(symbol, suffixes[k])
  }

  /** The row for a symbol from the outcome of its last lookup. */
  function RowFrom(symbol: string, answer: Option<Priced>): (row: Row)
    ensures row.symbol == symbol
    ensures row.price.NA? <==> answer.None?
    ensures answer.None? ==> row.currency == NotAvailable
    ensures answer.Some? ==> row.price.value == answer.value.close && row.currency == answer.value.currency
  {
    match answer
    case Some(p) => Row(symbol, Amount(p.close), p.currency)
    case None => Row(symbol, NA, NotAvailable)
  }

  /**
   * What the body of the loop in `fetch_prices` does for one symbol, once it is normalized
   * (`original_symbol`): the row it appends and the tickers it asks yfinance about, in order.
   * Its properties are the lemmas that follow.
   */
  function ResolveSymbol(original: string, lookup: string -> Lookup): (res: Resolution)
    ensures res.row.symbol == original
    ensures 1 <= |res.tried| <= 2 && res.tried[0] == original
  {
    if HasKnownSuffix(original) then
      Resolution(RowFrom(original, Answer(lookup(original))), [original])
    else
      match Answer(lookup(original))
      case Some(p) => Resolution(RowFrom(original, Some(p)), [original])
      case None =>
        var fallback := original + IndianSuffix;
        Resolution(RowFrom(original, Answer(lookup(fallback))), [original, fallback])
  }

  /** A symbol with an exchange suffix is looked up once, as written, never with ".NS" added. */
  lemma SuffixedSymbolLookedUpOnce(original: string, lookup: string -> Lookup)
    requires HasKnownSuffix(original)
    ensures ResolveSymbol(original, lookup).tried == [original]
  {
  }

  /**
   * Any other symbol is looked up as written first, and with ".NS" appended second exactly
   * when the first lookup did not succeed.
   */
  lemma PlainSymbolFallsBackToIndianExchange(original: string, lookup: string -> Lookup)
    requires !HasKnownSuffix(original)
    ensures var res := ResolveSymbol(original, lookup);
      && 1 <= |res.tried| <= 2
      && res.tried[0] == original
      && (|res.tried| == 2 <==> Answer(lookup(original)).None?)
      && (|res.tried| == 2 ==> res.tried[1] == original + IndianSuffix)
  {
  }

  /**
   * The price is "N/A" exactly when every lookup made failed, and then the currency is
   * "N/A" too; otherwise price and currency are those the last lookup made gave.
   */
  lemma NotAvailableIffEveryLookupFailed(original: string, lookup: string -> Lookup)
    ensures var res := ResolveSymbol(original, lookup);
      && |res.tried| >= 1
      && (res.row.price.NA? <==> forall k :: 0 <= k < |res.tried| ==> Answer(lookup(res.tried[k])).None?)
      && (res.row.price.NA? ==> res.row.currency == NotAvailable)
      && (res.row.price.Amount? ==>
            Answer(lookup(res.tried[|res.tried| - 1])) == Some(Priced(res.row.price.value, res.row.currency)))
  {
    var res := ResolveSymbol(original, lookup);
    var last := if HasKnownSuffix(original) || Answer(lookup(original)).Some? then original
      else original + IndianSuffix;
    assert res.tried == (if last == original then [original] else [original, last]);
    assert res.row == RowFrom(original, Answer(lookup(last)));
    assert res.tried[|res.tried| - 1] == last;
  }

  /** A successful lookup whose info has no currency gives the currency "N/A". */
  lemma MissingCurrencyIsNotAvailable(original: string, lookup: string -> Lookup, close: Num)
    requires var res := ResolveSymbol(original, lookup);
      lookup(res.tried[|res.tried| - 1]) == Quote(close, None)
    ensures ResolveSymbol(original, lookup).row == Row(original, Amount(close), NotAvailable)
  {
  }

  /**
   * One pass of the loop body of `fetch_prices`, for the symbol once normalized
   * (`original_symbol`): the row it appends, and the tickers it asks yfinance about in order.
   */
  method FetchOne(original: string, lookup: string -> Lookup) returns (row: Row, attempts: seq<string>)
    ensures Resolution(row, attempts) == ResolveSymbol(original, lookup)
  {
    attempts := [original];
    if HasKnownSuffix(original) {
      var answer := Answer(lookup(original));
      if answer.Some? {
        row := Row(original, Amount(answer.value.close), answer.value.currency);
      } else {
        row := Row(original, NA, NotAvailable);
      }
    } else {
      var first := Answer(lookup(original));
      if first.Some? {
        row := Row(original, Amount(first.value.close), first.value.currency);
      } else {
        var symbolNs := original + IndianSuffix;
        attempts := attempts + [symbolNs];
        var second := Answer(lookup(symbolNs));
        if second.Some? {
          row := Row(original, Amount(second.value.close), second.value.currency);
        } else {
          row := Row(original, NA, NotAvailable);
        }
      }
    }
  }

  /**
   * `fetch_prices(symbols)`: one row per input symbol, in input order, and the tickers
   * asked about for each of them.
   */
  method FetchPrices(symbols: seq<string>, lookup: string -> Lookup)
    returns (rows: seq<Row>, tried: seq<seq<string>>)
    ensures |rows| == |symbols| && |tried| == |symbols|
    ensures forall k :: 0 <= k < |symbols| ==>
      var res := ResolveSymbol(Normalize(symbols[k]), lookup);
      rows[k] == res.row && tried[k] == res.tried
  {
    rows, tried := [], [];
    var i := 0;
    while i < |symbols|
      invariant 0 <= i <= |symbols|
      invariant |rows| == i && |tried| == i
      invariant forall k :: 0 <= k < i ==>
        var res := ResolveSymbol(Normalize(symbols[k]), lookup);
        rows[k] == res.row && tried[k] == res.tried
    {
      var row, attempts := FetchOne(Normalize(symbols[i]), lookup);
      rows, tried := rows + [row], tried + [attempts];
      i := i + 1;
    }
  }

  /**
   * The list comprehension `[s.strip() for s in parts if s.strip()]`: every piece
   * stripped, blank pieces dropped, order kept.
   */
  function KeepTrimmed(parts: seq<string>): (r: seq<string>)
    ensures |r| <= |parts|
    ensures forall k :: 0 <= k < |r| ==> r[k] != [] && Trim(r[k], Python) == r[k]
  {
    if parts == [] then []
    else
      var t := Trim(parts[0], Python);
      TrimIdempotent(parts[0], Python);
      (if t == [] then [] else [t]) + KeepTrimmed(parts[1..])
  }

  /** The kept symbols are exactly the non-blank pieces, stripped. */
  lemma {:induction false} KeepTrimmedMembers(parts: seq<string>, x: string)
    ensures x in KeepTrimmed(parts) <==> x != [] && exists j :: 0 <= j < |parts| && x == Trim(parts[j], Python)
    decreases |parts|
  {
    if parts != [] {
      KeepTrimmedMembers(parts[1..], x);
      if exists j :: 0 <= j < |parts| && x == Trim(parts[j], Python) {
        var j :| 0 <= j < |parts| && x == Trim(parts[j], Python);
        if j > 0 {
          assert parts[1..][j - 1] == parts[j];
        }
      }
      if exists j :: 0 <= j < |parts[1..]| && x == Trim(parts[1..][j], Python) {
        var j :| 0 <= j < |parts[1..]| && x == Trim(parts[1..][j], Python);
        assert parts[j + 1] == parts[1..][j];
      }
    }
  }

  /** A character absent from a string is absent from its trimmed form. */
  lemma TrimKeepsAbsence(s: string, c: char)
    requires c !in s
    ensures c !in Trim(s, Python)
  {
  }

  /** A character no piece contains is contained in no kept symbol. */
  lemma {:induction false} KeepTrimmedAvoids(parts: seq<string>, c: char)
    requires forall k :: 0 <= k < |parts| ==> c !in parts[k]
    ensures forall k :: 0 <= k < |KeepTrimmed(parts)| ==> c !in KeepTrimmed(parts)[k]
    decreases |parts|
  {
    if parts != [] {
      TrimKeepsAbsence(parts[0], c);
      KeepTrimmedAvoids(parts[1..], c);
    }
  }

  /** Filtering pieces commutes with concatenating lists of pieces: the order is kept. */
  lemma {:induction false} KeepTrimmedAppend(a: seq<string>, b: seq<string>)
    ensures KeepTrimmed(a + b) == KeepTrimmed(a) + KeepTrimmed(b)
    decreases |a|
  {
    if a == [] {
      assert a + b == b;
    } else {
      assert (a + b)[0] == a[0];
      assert (a + b)[1..] == a[1..] + b;
      KeepTrimmedAppend(a[1..], b);
    }
  }

  /**
   * The symbol handling of `index` on a POST: a field that is blank after stripping is
   * refused with a message; otherwise the comma-separated pieces, stripped, blanks dropped.
   */
  function ParseSymbolList(field: string): (r: Result<seq<string>, string>)
    ensures r.Failure? <==> IsBlank(field, Python)
    ensures r.Failure? ==> r.error == BlankFieldMessage
    ensures r.Success? ==> r.value == KeepTrimmed(Split(field, ','))
    ensures r.Success? ==> forall k :: 0 <= k < |r.value| ==> ',' !in r.value[k]
  {
    if Trim(field, Python) == [] then Failure(BlankFieldMessage)
    else
      KeepTrimmedAvoids(Split(field, ','), ',');
      Success(KeepTrimmed(Split(field, ',')))
  }

  /** A field made only of commas and white space passes the blank check and yields no symbols. */
  lemma CommaOnlyFieldYieldsNoSymbols()
    ensures ParseSymbolList(" , ") == Success([])
  {
    var field := " , ";
    assert IsWhitespace(' ', Python) && !IsWhitespace(',', Python);
    assert Trim(field, Python) != [] by {
      assert !IsBlank(field, Python) by { assert field[1] == ','; }
    }
    assert Split(field, ',') == [" ", " "] by {
      SplitSeparatorFree(" ", ',');
      SplitAtFirst(" ", " ", ',');
      assert field == " " + [','] + " ";
    }
    assert Trim(" ", Python) == [] by {
      assert IsBlank(" ", Python);
    }
    assert KeepTrimmed([" "]) == [] by {
      assert [" "][1..] == [];
    }
    assert KeepTrimmed([" ", " "]) == [] by {
      assert [" ", " "][1..] == [" "];
    }
  }

  /** A field without commas is one symbol: the field stripped. */
  lemma SingleSymbolField(field: string)
    requires ',' !in field && !IsBlank(field, Python)
    ensures ParseSymbolList(field) == Success([Trim(field, Python)])
  {
    SplitSeparatorFree(field, ',');
    assert [field][1..] == [];
    assert Trim(field, Python) != [];
    assert KeepTrimmed([field]) == [Trim(field, Python)];
  }

  /**
   * `index()`: on a GET the page is rendered empty; on a POST the symbol field (empty
   * when missing) is either refused or resolved to one row per listed symbol.
   */
  method Index(verb: HttpMethod, symbolsField: Option<string>, lookup: string -> Lookup)
    returns (page: Page, tried: seq<seq<string>>)
    ensures verb == Get ==> page == Page(None, None) && tried == []
    ensures verb == Post && IsBlank(symbolsField.GetOr(""), Python) ==>
      page == Page(None, Some(BlankFieldMessage)) && tried == []
    ensures verb == Post && !IsBlank(symbolsField.GetOr(""), Python) ==>
      var symbols := ParseSymbolList(symbolsField.GetOr("")).value;
      && page.error == None
      && page.rows.Some?
      && |page.rows.value| == |symbols| == |tried|
      && forall k :: 0 <= k < |symbols| ==>
           var res := ResolveSymbol(Normalize(symbols[k]), lookup);
           page.rows.value[k] == res.row && tried[k] == res.tried
  {
    page, tried := Page(None, None), [];
    if verb == Post {
      var field := symbolsField.GetOr("");
      match ParseSymbolList(field)
      case Failure(message) =>
        page := Page(None, Some(message));
      case Success(symbols) =>
        var rows;
        rows, tried := FetchPrices(symbols, lookup);
        page := Page(Some(rows), None);
    }
  }
}
