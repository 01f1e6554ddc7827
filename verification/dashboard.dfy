/** The search normalisation and form transitions of `DashboardComponent`
    (frontend/src/app/dashboard.component.ts). The component's fields form a
    state record and each handler is a function from state to state; timers,
    HTTP calls and the report frame are not part of this model. */
module Dashboard {
  import opened Wrappers
  import opened Values
  import opened HistoryJson
  import Gateway

  // ---------------------------------------------------------------------
  // parseSearchResults
  // ---------------------------------------------------------------------

  /** A search hit as the dashboard shows it. */
  datatype DisplayRecord = DisplayRecord(
    exchange: Value, symbol: Value, shortname: Value, longname: Value,
    sector: Value, quoteType: Value, displayName: Value)

  /** The decoded body of the search endpoint: an array of objects, or
      anything that is not an array. */
  datatype SearchResponse = NotArray | Items(items: seq<map<string, Value>>)

  /** `item.longname || item.shortname || item.symbol`. */
  function DisplayName(item: map<string, Value>): (r: Value)
    ensures Truthy(JsProp(item, "longname")) ==> r == JsProp(item, "longname")
    ensures !Truthy(JsProp(item, "longname")) && Truthy(JsProp(item, "shortname")) ==> r == JsProp(item, "shortname")
    ensures !Truthy(JsProp(item, "longname")) && !Truthy(JsProp(item, "shortname")) ==> r == JsProp(item, "symbol")
  {
    JsOr(JsOr(JsProp(item, "longname"), JsProp(item, "shortname")), JsProp(item, "symbol"))
  }

  /** The record built for one array item. */
  function ToDisplay(item: map<string, Value>): DisplayRecord {
    DisplayRecord(JsProp(item, "exchange"), JsProp(item, "symbol"), JsProp(item, "shortname"),
                  JsProp(item, "longname"), JsProp(item, "sector"), JsProp(item, "quote_type"),
                  DisplayName(item))
  }

  /** `parseSearchResults(response)`: one record per array item, in order,
      each copying the six fields and naming the hit; `[]` for anything that
      is not an array. */
  function ParseSearchResults(response: SearchResponse): (r: seq<DisplayRecord>)
    ensures response.NotArray? ==> r == []
    ensures response.Items? ==> |r| == |response.items|
    ensures response.Items? ==> forall i :: 0 <= i < |r| ==>
              var item := response.items[i];
              && r[i].exchange == JsProp(item, "exchange")
              && r[i].symbol == JsProp(item, "symbol")
              && r[i].shortname == JsProp(item, "shortname")
              && r[i].longname == JsProp(item, "longname")
              && r[i].sector == JsProp(item, "sector")
              && r[i].quoteType == JsProp(item, "quote_type")
              && r[i].displayName == DisplayName(item)
  {
    match response
    case NotArray => []
    case Items(items) => seq(|items|, i requires 0 <= i < |items| => ToDisplay(items[i]))
  }

  /** Each hit is displayed from the item at its own position. */
  lemma ParsedAt(items: seq<map<string, Value>>, i: nat)
    requires i < |items|
    ensures ParseSearchResults(Items(items))[i] == ToDisplay(items[i])
  {
  }

  /** The mapping works item by item: parsing two arrays joined is joining
      their parses, so the order of the hits is kept. */
  lemma ParseSearchResultsAppend(a: seq<map<string, Value>>, b: seq<map<string, Value>>)
    ensures ParseSearchResults(Items(a + b)) == ParseSearchResults(Items(a)) + ParseSearchResults(Items(b))
  {
    var lhs := ParseSearchResults(Items(a + b));
    var rhs := ParseSearchResults(Items(a)) + ParseSearchResults(Items(b));
    forall i | 0 <= i < |lhs|
      ensures lhs[i] == rhs[i]
    {
      ParsedAt(a + b, i);
      if i < |a| {
        ParsedAt(a, i);
        assert (a + b)[i] == a[i];
      } else {
        ParsedAt(b, i - |a|);
        assert (a + b)[i] == b[i - |a|];
      }
    }
  }

  /** The score is not carried: whatever an item's `score` holds, its record
      is the same. */
  lemma ScoreIgnored(items: seq<map<string, Value>>, i: nat, score: Value)
    requires i < |items|
    ensures ParseSearchResults(Items(items[i := items[i]["score" := score]])) == ParseSearchResults(Items(items))
  {
    var changed := items[i := items[i]["score" := score]];
    assert ToDisplay(changed[i]) == ToDisplay(items[i]);
    assert forall j :: 0 <= j < |items| ==> ToDisplay(changed[j]) == ToDisplay(items[j]);
  }

  /** A hit with a truthy symbol always gets a truthy display name. */
  lemma DisplayNameTruthy(item: map<string, Value>)
    ensures Truthy(JsProp(item, "symbol")) ==> Truthy(DisplayName(item))
  {
  }

  /** Against the gateway: every record `search_stocks` produces is shown as
      an equity, under the gateway's `symbol`. */
  lemma GatewayRecordsShowAsEquities(quotes: seq<Gateway.Quote>)
    ensures var shown := ParseSearchResults(Items(Gateway.FilterQuotes(quotes)));
            && |shown| == Gateway.EquityCount(quotes)
            && forall i :: 0 <= i < |shown| ==> shown[i].quoteType == Str("EQUITY")
  {
  }

  // ---------------------------------------------------------------------
  // Component state and transitions
  // ---------------------------------------------------------------------

  /** Number of entries of `financialTips`. */
  const FinancialTipCount: nat := 12

  /** Minimum query length, in UTF-16 code units, that schedules a search. */
  const MinQueryLength: nat := 2

  /** What `parseStockData` handed the component. */
  datatype StockData = StockData(summary: string, report: string)

  /** The fields of `DashboardComponent` that its handlers read and write.
      `stockName` and `ticker` are bound to inputs but also receive arbitrary
      values from `selectStock`, so they are JavaScript values. */
  datatype Form = Form(
    stockName: Value,
    ticker: Value,
    loading: bool,
    stockData: Option<StockData>,
    error: string,
    recentSearches: seq<SearchHistory>,
    currentTipIndex: nat,
    searchQuery: string,
    searchResults: seq<DisplayRecord>,
    reportBlobUrl: Option<string>,
    reportHtmlContent: string)

  /** The field initialisers, with the recent searches the constructor loads. */
  function Initial(recent: seq<SearchHistory>): (st: Form)
    ensures Valid(st)
    ensures !Truthy(st.stockName) && !st.loading
  {
    Form(Str(""), Str(""), false, None, "", recent, 0, "", [], None, "")
  }

  /** The tip index points into `financialTips`. */
  predicate Valid(st: Form) {
    st.currentTipIndex < FinancialTipCount
  }

  /** JavaScript `s.length`: code units of the UTF-16 encoding, where a
      character beyond the Basic Multilingual Plane counts twice. */
  function Utf16Length(s: string): (n: nat)
    ensures |s| <= n <= 2 * |s|
  {
    if s == [] then 0
    else (if s[0] as int > 0xFFFF then 2 else 1) + Utf16Length(s[1..])
  }

  /** The queries too short to search for: empty, or one character of the
      Basic Multilingual Plane. */
  lemma ShortQueries(s: string)
    ensures Utf16Length(s) < MinQueryLength <==> s == [] || (|s| == 1 && s[0] as int <= 0xFFFF)
  {
    if |s| == 1 {
      assert s[1..] == [];
    }
  }

  /** The outcome of `onSearchInput`: the new state and whether a search was
      scheduled. */
  datatype InputResult = InputResult(state: Form, searchScheduled: bool)

  /** `onSearchInput()`: a query shorter than two code units clears the
      results and schedules nothing; otherwise a search is scheduled and no
      field changes yet. */
  function OnSearchInput(st: Form): (r: InputResult)
    ensures r.searchScheduled <==> Utf16Length(st.searchQuery) >= MinQueryLength
    ensures !r.searchScheduled ==> r.state.searchResults == [] && r.state == st.(searchResults := [])
    ensures r.searchScheduled ==> r.state == st
  {
    if Utf16Length(st.searchQuery) < MinQueryLength then InputResult(st.(searchResults := []), false)
    else InputResult(st, true)
  }

  /** `selectStock(stock)`: the form takes the hit's display name and symbol;
      the result list and the query are emptied. */
  function SelectStock(st: Form, stock: DisplayRecord): (r: Form)
    ensures r.stockName == stock.displayName && r.ticker == stock.symbol
    ensures r.searchResults == [] && r.searchQuery == ""
    ensures r.currentTipIndex == st.currentTipIndex && r.loading == st.loading
    ensures r.recentSearches == st.recentSearches
  {
    st.(stockName := stock.displayName, ticker := stock.symbol, searchResults := [], searchQuery := "")
  }

  /** `loadSearch(search)`: the form takes a remembered search's name and ticker. */
  function LoadSearch(st: Form, search: SearchHistory): (r: Form)
    ensures r.stockName == Str(search.stockName) && r.ticker == Str(search.ticker)
    ensures r.searchResults == st.searchResults && r.searchQuery == st.searchQuery
    ensures r.currentTipIndex == st.currentTipIndex && r.loading == st.loading
  {
    st.(stockName := Str(search.stockName), ticker := Str(search.ticker))
  }

  /** Whether `onSubmit` goes past its guard. */
  predicate CanSubmit(st: Form) {
    Truthy(st.stockName) && Truthy(st.ticker)
  }

  /** `onSubmit()` up to the request: with an empty name or ticker nothing
      changes; otherwise the form is loading, the error, data, report frame
      and report text are reset and the tip rotation restarts at 0. */
  function OnSubmit(st: Form): (r: Form)
    ensures !CanSubmit(st) ==> r == st
    ensures CanSubmit(st) ==>
              && r.loading && r.error == "" && r.stockData.None?
              && r.reportBlobUrl.None? && r.reportHtmlContent == "" && r.currentTipIndex == 0
              && r.stockName == st.stockName && r.ticker == st.ticker
              && r.recentSearches == st.recentSearches
              && r.searchQuery == st.searchQuery && r.searchResults == st.searchResults
  {
    if !CanSubmit(st) then st
    else st.(loading := true, error := "", stockData := None, reportBlobUrl := None,
             reportHtmlContent := "", currentTipIndex := 0)
  }

  /** One rotation step of the tip timer. */
  function TipTick(i: nat): (r: nat)
    ensures r < FinancialTipCount
    ensures i + 1 < FinancialTipCount ==> r == i + 1
    ensures i + 1 == FinancialTipCount ==> r == 0
  {
    (i + 1) % FinancialTipCount
  }

  /** The timer firing once. */
  function Tick(st: Form): (r: Form)
    ensures Valid(r)
    ensures r == st.(currentTipIndex := r.currentTipIndex)
  {
    st.(currentTipIndex := TipTick(st.currentTipIndex))
  }

  /** The timer firing `n` times. */
  function Ticks(st: Form, n: nat): Form
    decreases n
  {
    if n == 0 then st else Tick(Ticks(st, n - 1))
  }

  /** After a submission the tips cycle: `n` ticks later the index is
      `n mod 12`. */
  lemma {:induction false} TicksCycle(st: Form, n: nat)
    requires CanSubmit(st)
    ensures Ticks(OnSubmit(st), n).currentTipIndex == n % FinancialTipCount
    decreases n
  {
    if n > 0 {
      TicksCycle(st, n - 1);
      var k := (n - 1) % FinancialTipCount;
      assert Ticks(OnSubmit(st), n).currentTipIndex == TipTick(k);
      if k + 1 < FinancialTipCount {
        assert n % FinancialTipCount == k + 1;
      } else {
        assert n % FinancialTipCount == 0;
      }
    }
  }

  /** Every transition keeps the tip index within `financialTips`. */
  lemma TransitionsKeepValid(st: Form, stock: DisplayRecord, search: SearchHistory, n: nat)
    requires Valid(st)
    ensures Valid(OnSearchInput(st).state)
    ensures Valid(SelectStock(st, stock)) && Valid(LoadSearch(st, search))
    ensures Valid(OnSubmit(st)) && Valid(Tick(st))
    ensures Valid(Ticks(st, n))
  {
    if n > 0 {
      assert Ticks(st, n) == Tick(Ticks(st, n - 1));
    }
  }

  /** Picking a hit whose symbol is set makes the form submittable. */
  lemma SelectedHitSubmits(st: Form, item: map<string, Value>)
    requires Truthy(JsProp(item, "symbol"))
    ensures CanSubmit(SelectStock(st, ToDisplay(item)))
    ensures OnSubmit(SelectStock(st, ToDisplay(item))).loading
  {
    DisplayNameTruthy(item);
  }

  /** Reloading a remembered search with a name and a ticker makes the form
      submittable, and the submission carries that name and ticker. */
  lemma LoadedSearchSubmits(st: Form, search: SearchHistory)
    requires search.stockName != "" && search.ticker != ""
    ensures var r := OnSubmit(LoadSearch(st, search));
            r.loading && r.stockName == Str(search.stockName) && r.ticker == Str(search.ticker)
  {
  }
}
