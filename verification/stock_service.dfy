/** The front end's stock service (frontend/src/app/stock.service.ts): the
    bounded, de-duplicated list of recent searches kept in browser storage,
    the joining of a streamed answer before it is parsed, and the parameters
    of the report request. */
module StockService {
  import opened Wrappers
  import opened Text
  import opened LocalStore
  import opened HistoryJson
  import Gateway
  import Orchestrator

  /** The storage key of the list. */
  const SearchesKey: string := "stockSearches"

  /** How many searches are remembered. */
  const HistoryLimit: nat := 5

  /** The actor every report request names. */
  const ReportActor: string := "noventiqteam_123"

  // ---------------------------------------------------------------------
  // getRecentSearches
  // ---------------------------------------------------------------------

  /** `getRecentSearches()`: `[]` when nothing (or the empty string) is
      stored, otherwise the parsed list; text that does not parse makes
      `JSON.parse` throw. */
  function GetRecentSearches(st: Store): (r: Outcome<seq<SearchHistory>>)
    ensures GetItem(st, SearchesKey).None? ==> r == Returned([])
    ensures GetItem(st, SearchesKey) == Some("") ==> r == Returned([])
    ensures r.Raised? <==>
              GetItem(st, SearchesKey).Some? && GetItem(st, SearchesKey) != Some("")
              && DecodeHistory(GetItem(st, SearchesKey).value).None?
  {
    match GetItem(st, SearchesKey)
    case None => Returned([])
    case Some(text) =>
      if text == "" then Returned([])
      else
        match DecodeHistory(text)
        case None => Raised
        case Some(xs) => Returned(xs)
  }

  // ---------------------------------------------------------------------
  // saveSearch
  // ---------------------------------------------------------------------

  /** Whether an entry is for the given stock name and ticker. */
  predicate SamePair(e: SearchHistory, stockName: string, ticker: string) {
    e.stockName == stockName && e.ticker == ticker
  }

  /** `searches.filter(s => !(s.stockName === stockName && s.ticker === ticker))`. */
  function RemovePair(xs: seq<SearchHistory>, stockName: string, ticker: string): (r: seq<SearchHistory>)
    ensures |r| <= |xs|
    ensures forall i :: 0 <= i < |r| ==> r[i] in xs && !SamePair(r[i], stockName, ticker)
  {
    if xs == [] then []
    else if SamePair(xs[0], stockName, ticker) then RemovePair(xs[1..], stockName, ticker)
    else [xs[0]] + RemovePair(xs[1..], stockName, ticker)
  }

  /** Nothing but the given pair is removed. */
  lemma {:induction false} RemovePairKeepsOthers(xs: seq<SearchHistory>, stockName: string, ticker: string)
    ensures forall e :: e in xs && !SamePair(e, stockName, ticker) ==> e in RemovePair(xs, stockName, ticker)
    decreases |xs|
  {
    if xs != [] {
      RemovePairKeepsOthers(xs[1..], stockName, ticker);
      forall e | e in xs && !SamePair(e, stockName, ticker)
        ensures e in RemovePair(xs, stockName, ticker)
      {
        if e != xs[0] {
          assert e in xs[1..];
        }
      }
    }
  }

  /** Filtering distributes over concatenation. */
  lemma {:induction false} RemovePairAppend(a: seq<SearchHistory>, b: seq<SearchHistory>, stockName: string, ticker: string)
    ensures RemovePair(a + b, stockName, ticker) == RemovePair(a, stockName, ticker) + RemovePair(b, stockName, ticker)
    decreases |a|
  {
    if a == [] {
      assert a + b == b;
    } else {
      assert (a + b)[1..] == a[1..] + b;
      RemovePairAppend(a[1..], b, stockName, ticker);
    }
  }

  /** A list without the pair is left as it is. */
  lemma {:induction false} RemovePairAbsent(xs: seq<SearchHistory>, stockName: string, ticker: string)
    ensures (forall i :: 0 <= i < |xs| ==> !SamePair(xs[i], stockName, ticker)) ==> RemovePair(xs, stockName, ticker) == xs
    decreases |xs|
  {
    if xs != [] && forall i :: 0 <= i < |xs| ==> !SamePair(xs[i], stockName, ticker) {
      RemovePairAbsent(xs[1..], stockName, ticker);
      assert [xs[0]] + xs[1..] == xs;
    }
  }

  /** `a` occurs in `b` in order, possibly with gaps. */
  predicate SubsequenceOf(a: seq<SearchHistory>, b: seq<SearchHistory>)
    decreases |b|
  {
    if a == [] then true
    else if b == [] then false
    else if a[0] == b[0] then SubsequenceOf(a[1..], b[1..])
    else SubsequenceOf(a, b[1..])
  }

  /** Filtering keeps the survivors in their order. */
  lemma {:induction false} RemovePairSubsequence(xs: seq<SearchHistory>, stockName: string, ticker: string)
    ensures SubsequenceOf(RemovePair(xs, stockName, ticker), xs)
    decreases |xs|
  {
    if xs != [] {
      RemovePairSubsequence(xs[1..], stockName, ticker);
      var rest := RemovePair(xs[1..], stockName, ticker);
      if !SamePair(xs[0], stockName, ticker) {
        assert ([xs[0]] + rest)[1..] == rest;
      } else if rest != [] && rest[0] == xs[0] {
        assert false;
      }
    }
  }

  /** A prefix of a subsequence is a subsequence. */
  lemma {:induction false} PrefixSubsequence(a: seq<SearchHistory>, b: seq<SearchHistory>, n: nat)
    requires SubsequenceOf(a, b) && n <= |a|
    ensures SubsequenceOf(a[..n], b)
    decreases |b|
  {
    if n > 0 {
      if a[0] == b[0] {
        PrefixSubsequence(a[1..], b[1..], n - 1);
        assert a[..n][1..] == a[1..][..n - 1];
      } else {
        PrefixSubsequence(a, b[1..], n);
      }
    }
  }

  /** A list whose only entry for the pair is its head loses just the head. */
  lemma DropLeadingPair(xs: seq<SearchHistory>, stockName: string, ticker: string)
    requires xs != [] && SamePair(xs[0], stockName, ticker)
    requires forall i :: 1 <= i < |xs| ==> !SamePair(xs[i], stockName, ticker)
    ensures RemovePair(xs, stockName, ticker) == xs[1..]
  {
    var rest := xs[1..];
    assert forall i :: 0 <= i < |rest| ==> rest[i] == xs[i + 1];
    RemovePairAbsent(rest, stockName, ticker);
  }

  /** The list `saveSearch` writes, given the list it read: the new entry
      first, then the older entries for other pairs, cut to five. */
  function Remember(xs: seq<SearchHistory>, e: SearchHistory): (r: seq<SearchHistory>)
    ensures 1 <= |r| <= HistoryLimit
    ensures r[0] == e
    ensures forall i :: 1 <= i < |r| ==> !SamePair(r[i], e.stockName, e.ticker)
    ensures SubsequenceOf(r[1..], xs)
    ensures |xs| < HistoryLimit && (forall i :: 0 <= i < |xs| ==> !SamePair(xs[i], e.stockName, e.ticker))
            ==> r == [e] + xs
  {
    var filtered := RemovePair(xs, e.stockName, e.ticker);
    var kept := [e] + filtered;
    var r := if |kept| <= HistoryLimit then kept else kept[..HistoryLimit];
    assert r[1..] == filtered[..|r| - 1];
    RemovePairSubsequence(xs, e.stockName, e.ticker);
    PrefixSubsequence(filtered, xs, |r| - 1);
    RemovePairAbsent(xs, e.stockName, e.ticker);
    r
  }

  /** Every older entry for another pair survives while there is room: an
      entry within the first four of the filtered list is kept. */
  lemma RememberKeepsRecentOthers(xs: seq<SearchHistory>, e: SearchHistory)
    ensures var filtered := RemovePair(xs, e.stockName, e.ticker);
            forall i :: 0 <= i < |filtered| && i < HistoryLimit - 1 ==> Remember(xs, e)[i + 1] == filtered[i]
  {
  }

  /** The (name, ticker) pairs of a list, in order. */
  function Pairs(xs: seq<SearchHistory>): (r: seq<(string, string)>)
    ensures |r| == |xs|
  {
    seq(|xs|, i requires 0 <= i < |xs| => (xs[i].stockName, xs[i].ticker))
  }

  /** Remembering the same pair twice in a row (with any dates) gives the same
      pairs as remembering it once. */
  lemma RememberTwice(xs: seq<SearchHistory>, e1: SearchHistory, e2: SearchHistory)
    requires SamePair(e2, e1.stockName, e1.ticker)
    ensures Pairs(Remember(Remember(xs, e1), e2)) == Pairs(Remember(xs, e1))
  {
    var once := Remember(xs, e1);
    DropLeadingPair(once, e2.stockName, e2.ticker);
    var twice := Remember(once, e2);
    assert twice == [e2] + once[1..];
    assert forall i :: 0 <= i < |twice| ==> Pairs(twice)[i] == Pairs(once)[i];
  }

  /** `saveSearch(stockName, ticker)` at time `date`: reads the list, puts the
      new entry in front of the entries for other pairs, keeps five, and
      stores the list's JSON text. A stored list that does not parse makes it
      throw before anything is written. */
  function SaveSearch(st: Store, stockName: string, ticker: string, date: string): (r: Outcome<Store>)
    ensures r.Raised? <==> GetRecentSearches(st).Raised?
    ensures r.Returned? ==>
              GetRecentSearches(r.value)
              == Returned(Remember(GetRecentSearches(st).value, SearchHistory(stockName, ticker, date)))
    ensures r.Returned? ==> forall k :: k != SearchesKey ==> GetItem(r.value, k) == GetItem(st, k)
  {
    match GetRecentSearches(st)
    case Raised => Raised
    case Returned(searches) =>
      var updated := Remember(searches, SearchHistory(stockName, ticker, date));
      HistoryRoundTrip(updated);
      Returned(SetItem(st, SearchesKey, EncodeHistory(updated)))
  }

  /** After a save, the recent searches start with it, hold at most five
      entries, none other for the same pair, and the older survivors in their
      previous order. */
  lemma SavedSearchComesFirst(st: Store, stockName: string, ticker: string, date: string)
    requires SaveSearch(st, stockName, ticker, date).Returned?
    ensures var after := GetRecentSearches(SaveSearch(st, stockName, ticker, date).value);
            && after.Returned?
            && 1 <= |after.value| <= HistoryLimit
            && after.value[0] == SearchHistory(stockName, ticker, date)
            && (forall i :: 1 <= i < |after.value| ==> !SamePair(after.value[i], stockName, ticker))
            && SubsequenceOf(after.value[1..], GetRecentSearches(st).value)
  {
  }

  /** Saving the same pair twice in a row gives the same pairs as saving it
      once. */
  lemma SaveSearchIdempotentOnPairs(st: Store, stockName: string, ticker: string, d1: string, d2: string)
    requires SaveSearch(st, stockName, ticker, d1).Returned?
    ensures var once := SaveSearch(st, stockName, ticker, d1).value;
            && SaveSearch(once, stockName, ticker, d2).Returned?
            && Pairs(GetRecentSearches(SaveSearch(once, stockName, ticker, d2).value).value)
               == Pairs(GetRecentSearches(once).value)
  {
    var before := GetRecentSearches(st).value;
    RememberTwice(before, SearchHistory(stockName, ticker, d1), SearchHistory(stockName, ticker, d2));
  }

  // ---------------------------------------------------------------------
  // parseStockData and getStockReport
  // ---------------------------------------------------------------------

  /** `parseStockData(response)`: the chunks are joined in order and handed to
      `JSON.parse`, which is a parameter here. */
  function ParseStockData<T>(response: seq<string>, parse: string -> Outcome<T>): Outcome<T> {
    parse(Concat(response))
  }

  /** Where a chunk boundary falls does not matter: splitting any chunk in
      two gives the same parse. */
  lemma ParseIgnoresChunking<T>(response: seq<string>, i: nat, cut: nat, parse: string -> Outcome<T>)
    requires i < |response| && cut <= |response[i]|
    ensures ParseStockData(response[..i] + [response[i][..cut], response[i][cut..]] + response[i + 1..], parse)
         == ParseStockData(response, parse)
  {
    SplitChunkPreservesConcat(response, i, cut);
  }

  /** The chunks the gateway extracts from an event stream are parsed as the
      text the agent sent, however it was cut into "data: " events. */
  lemma StreamedAnswerParsed<T>(payloads: seq<string>, parse: string -> Outcome<T>)
    ensures ParseStockData(Gateway.ExtractData(Gateway.Frame(payloads)), parse) == parse(Concat(payloads))
  {
    Gateway.ExtractFramed(payloads);
  }

  /** The query parameters of `getStockReport(stockName, ticker)`. */
  function ReportParams(stockName: string, ticker: string): (p: map<string, string>)
    ensures p.Keys == {"stockname", "ticker_symbol", "actor_id"}
    ensures p["actor_id"] == ReportActor
  {
    map["stockname" := stockName, "ticker_symbol" := ticker, "actor_id" := ReportActor]
  }

  /** A report request reaches the agent's run as the chosen stock name and
      ticker, on behalf of the fixed actor. */
  lemma ReportRequestReachesRun(stockName: string, ticker: string)
    ensures Orchestrator.RequestOf(Gateway.InvokePayload(ReportParams(stockName, ticker)))
         == Orchestrator.Request(Some(stockName), Some(ticker), Some(ReportActor))
  {
    var p := ReportParams(stockName, ticker);
    assert Gateway.QueryParam(p, "stockname") == Some(stockName);
    assert Gateway.QueryParam(p, "ticker_symbol") == Some(ticker);
    assert Gateway.QueryParam(p, "actor_id") == Some(ReportActor);
  }
}
