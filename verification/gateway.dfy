/** The HTTP gateway in front of the agent (backend/invoke.py): the stock
    search with its quote filter and query-string encoding, the routing of
    `lambda_handler`, and the reading of the agent runtime's response. The
    search provider and the agent runtime are inputs. */
module Gateway {
  import opened Wrappers
  import opened Values
  import opened Text
  import Orchestrator

  // ---------------------------------------------------------------------
  // search_stocks: query-string parameters
  // ---------------------------------------------------------------------

  /** The keyword arguments of `search_stocks`. */
  datatype SearchOptions = SearchOptions(
    query: Option<string>,
    lang: string,
    region: string,
    enableFuzzyQuery: bool,
    quotesQueryId: string,
    multiQuoteQueryId: string,
    newsQueryId: string,
    enableCb: bool,
    enableNavLinks: bool,
    enableEnhancedTrivialQuery: bool,
    enableResearchReports: bool,
    enableCulturalAssets: bool,
    enableLogoUrl: bool,
    enableLists: bool,
    recommendCount: nat,
    enableCccBoost: bool,
    enablePrivateCompany: bool)

  /** The defaults the handler relies on: it passes only the query. */
  function DefaultOptions(query: Option<string>): SearchOptions {
    SearchOptions(query, "en-US", "US", false, "tss_match_phrase_query",
                  "multi_quote_single_token_query", "news_cie_vespa", false, true, true,
                  true, true, true, false, 5, true, true)
  }

  /** Python `str(b).lower()`. */
  function FlagText(b: bool): (r: string)
    ensures r == "true" || r == "false"
  {
    if b then "true" else "false"
  }

  /** Reads a lower-case flag back; anything else is not a flag. */
  function FlagValue(s: string): (r: Option<bool>)
    ensures r.Some? <==> s == "true" || s == "false"
  {
    if s == "true" then Some(true) else if s == "false" then Some(false) else None
  }

  /** The encoding of flags is faithful. */
  lemma FlagRoundTrip(b: bool)
    ensures FlagValue(FlagText(b)) == Some(b)
  {
  }

  /** The `params` dictionary of the search request as it goes on the wire,
      one field per key in the dictionary's order. `requests` leaves out a key
      whose value is `None`, so there is no `q` without a query. Every other
      value is text: each flag a lower-case boolean, `recommendCount` an
      integer written in decimal. */
  datatype QueryString = QueryString(
    q: Option<string>,
    lang: string,
    region: string,
    enableFuzzyQuery: string,
    quotesQueryId: string,
    multiQuoteQueryId: string,
    newsQueryId: string,
    enableCb: string,
    enableNavLinks: string,
    enableEnhancedTrivialQuery: string,
    enableResearchReports: string,
    enableCulturalAssets: string,
    enableLogoUrl: string,
    enableLists: string,
    recommendCount: string,
    enableCccBoost: string,
    enablePrivateCompany: string)
  {
    /** The ten flag values, in the dictionary's order. */
    function Flags(): seq<string> {
      [enableFuzzyQuery, enableCb, enableNavLinks, enableEnhancedTrivialQuery,
       enableResearchReports, enableCulturalAssets, enableLogoUrl, enableLists,
       enableCccBoost, enablePrivateCompany]
    }

    /** The pairs sent, by their names on the wire. */
    function Entries(): (r: seq<(string, string)>)
      ensures |r| == if q.Some? then 17 else 16
      ensures q.Some? <==> exists i :: 0 <= i < |r| && r[i].0 == "q"
    {
      var rest := [("lang", lang), ("region", region), ("enableFuzzyQuery", enableFuzzyQuery),
                   ("quotesQueryId", quotesQueryId), ("multiQuoteQueryId", multiQuoteQueryId),
                   ("newsQueryId", newsQueryId), ("enableCb", enableCb),
                   ("enableNavLinks", enableNavLinks),
                   ("enableEnhancedTrivialQuery", enableEnhancedTrivialQuery),
                   ("enableResearchReports", enableResearchReports),
                   ("enableCulturalAssets", enableCulturalAssets),
                   ("enableLogoUrl", enableLogoUrl), ("enableLists", enableLists),
                   ("recommendCount", recommendCount), ("enableCccBoost", enableCccBoost),
                   ("enablePrivateCompany", enablePrivateCompany)];
      assert forall i :: 0 <= i < |rest| ==> rest[i].0 != "q";
      if q.Some? then
        var sent := [("q", q.value)] + rest;
        assert sent[0].0 == "q";
        sent
      else rest
    }
  }

  /** Whether a text is a non-empty run of decimal digits. */
  predicate IsDigits(s: string) {
    |s| >= 1 && forall i :: 0 <= i < |s| ==> '0' <= s[i] <= '9'
  }

  /** The query string sent to the search provider: the query when there is
      one, every flag in lower case, the count in decimal. */
  function SearchParams(o: SearchOptions): (p: QueryString)
    ensures p.q == o.query
    ensures forall i :: 0 <= i < |p.Flags()| ==> p.Flags()[i] == "true" || p.Flags()[i] == "false"
    ensures IsDigits(p.recommendCount)
  {
    QueryString(o.query, o.lang, o.region, FlagText(o.enableFuzzyQuery),
                o.quotesQueryId, o.multiQuoteQueryId, o.newsQueryId,
                FlagText(o.enableCb), FlagText(o.enableNavLinks),
                FlagText(o.enableEnhancedTrivialQuery), FlagText(o.enableResearchReports),
                FlagText(o.enableCulturalAssets), FlagText(o.enableLogoUrl),
                FlagText(o.enableLists), Decimal(o.recommendCount),
                FlagText(o.enableCccBoost), FlagText(o.enablePrivateCompany))
  }

  /** Whether every flag of a query string is well formed. */
  predicate WellFormedFlags(p: QueryString) {
    forall i :: 0 <= i < |p.Flags()| ==> FlagValue(p.Flags()[i]).Some?
  }

  /** The flag a well-formed flag text holds. */
  function ReadFlag(s: string): bool {
    s == "true"
  }

  /** What a receiver reads back from a query string: the options, or `None`
      when a flag or the count is malformed. */
  function DecodeParams(p: QueryString): (r: Option<SearchOptions>)
    ensures r.Some? <==> WellFormedFlags(p) && IsDigits(p.recommendCount)
    ensures r.Some? ==> r.value.query == p.q
  {
    if !WellFormedFlags(p) || !IsDigits(p.recommendCount) then None
    else
      Some(SearchOptions(
        p.q, p.lang, p.region, ReadFlag(p.enableFuzzyQuery),
        p.quotesQueryId, p.multiQuoteQueryId, p.newsQueryId,
        ReadFlag(p.enableCb), ReadFlag(p.enableNavLinks),
        ReadFlag(p.enableEnhancedTrivialQuery), ReadFlag(p.enableResearchReports),
        ReadFlag(p.enableCulturalAssets), ReadFlag(p.enableLogoUrl),
        ReadFlag(p.enableLists), ParseDecimal(p.recommendCount),
        ReadFlag(p.enableCccBoost), ReadFlag(p.enablePrivateCompany)))
  }

  /** The query string loses nothing: every option, flags and count included,
      can be read back from it. */
  lemma SearchParamsRoundTrip(o: SearchOptions)
    ensures DecodeParams(SearchParams(o)) == Some(o)
  {
    DecimalRoundTrip(o.recommendCount);
  }

  // ---------------------------------------------------------------------
  // search_stocks: filtering the quotes
  // ---------------------------------------------------------------------

  /** One decoded quote object of the provider's response. */
  type Quote = map<string, Value>

  /** One output record of `search_stocks`. */
  type SearchRecord = map<string, Value>

  /** The fields of an output record. */
  const RecordFields: set<string> := {"exchange", "symbol", "shortname", "sector", "longname", "quote_type", "score"}

  /** The "quotes" member of the provider's response: missing (the default
      `[]` applies), present but not a list (iterating it raises), or a list. */
  datatype QuotesField = Absent | NotIterable | Listed(items: seq<Quote>)

  /** Only equities are kept. */
  predicate IsEquity(q: Quote) {
    PyGet(q, "quoteType") == Str("EQUITY")
  }

  /** The record built from one quote. */
  function Project(q: Quote): SearchRecord {
    map[
      "exchange" := PyGet(q, "exchange"),
      "symbol" := PyGet(q, "symbol"),
      "shortname" := PyGet(q, "shortname"),
      "sector" := PyGet(q, "sector"),
      "longname" := PyGet(q, "longname"),
      "quote_type" := PyGet(q, "quoteType"),
      "score" := PyGet(q, "score")]
  }

  /** The number of equities among the quotes. */
  function EquityCount(items: seq<Quote>): nat {
    if items == [] then 0 else (if IsEquity(items[0]) then 1 else 0) + EquityCount(items[1..])
  }

  /** The loop of `search_stocks`: one record per equity quote, in order, each
      with exactly the seven fields, its `quote_type` being "EQUITY". */
  function FilterQuotes(items: seq<Quote>): (r: seq<SearchRecord>)
    ensures |r| == EquityCount(items) <= |items|
    ensures forall i :: 0 <= i < |r| ==> r[i].Keys == RecordFields && r[i]["quote_type"] == Str("EQUITY")
  {
    if items == [] then []
    else if IsEquity(items[0]) then [Project(items[0])] + FilterQuotes(items[1..])
    else FilterQuotes(items[1..])
  }

  /** Filtering distributes over concatenation, so the output keeps the
      quotes' order. */
  lemma {:induction false} FilterQuotesAppend(a: seq<Quote>, b: seq<Quote>)
    ensures FilterQuotes(a + b) == FilterQuotes(a) + FilterQuotes(b)
    decreases |a|
  {
    if a == [] {
      assert a + b == b;
    } else {
      assert (a + b)[1..] == a[1..] + b;
      FilterQuotesAppend(a[1..], b);
    }
  }

  /** A single quote yields its projection when it is an equity and nothing
      otherwise; with the lemma above this determines the whole output. */
  lemma FilterQuotesSingle(q: Quote)
    ensures IsEquity(q) ==> FilterQuotes([q]) == [Project(q)]
    ensures !IsEquity(q) ==> FilterQuotes([q]) == []
  {
    assert [q][1..] == [];
  }

  /** Every field of a record is copied from its quote: `quote_type` from
      `quoteType`, the others from the field of the same name, `None` when
      the quote lacks it. */
  lemma ProjectCopiesFields(q: Quote)
    ensures forall f :: f in RecordFields && f != "quote_type" ==> Project(q)[f] == PyGet(q, f)
    ensures Project(q)["quote_type"] == PyGet(q, "quoteType")
  {
  }

  /** When every quote is an equity, each one comes out, at the same position. */
  lemma {:induction false} AllEquitiesKept(items: seq<Quote>)
    requires forall i :: 0 <= i < |items| ==> IsEquity(items[i])
    ensures |FilterQuotes(items)| == |items|
    ensures forall i :: 0 <= i < |items| ==> FilterQuotes(items)[i] == Project(items[i])
    decreases |items|
  {
    if items != [] {
      AllEquitiesKept(items[1..]);
      var rest := FilterQuotes(items[1..]);
      assert FilterQuotes(items) == [Project(items[0])] + rest;
      forall i | 0 <= i < |items|
        ensures FilterQuotes(items)[i] == Project(items[i])
      {
        if i > 0 {
          assert FilterQuotes(items)[i] == rest[i - 1];
          assert items[1..][i - 1] == items[i];
        }
      }
    }
  }

  /** `search_stocks` once the provider has answered (a failed request or a
      non-success status is `Raised`). */
  function SearchStocks(response: Outcome<QuotesField>): (r: Outcome<seq<SearchRecord>>)
    ensures response == Returned(Absent) ==> r == Returned([])
    ensures r.Raised? <==> response.Raised? || response == Returned(NotIterable)
    ensures response.Returned? && response.value.Listed? ==>
              r.Returned? && |r.value| == EquityCount(response.value.items)
  {
    match response
    case Raised => Raised
    case Returned(Absent) => Returned([])
    case Returned(NotIterable) => Raised
    case Returned(Listed(items)) => Returned(FilterQuotes(items))
  }

  // ---------------------------------------------------------------------
  // lambda_handler: the agent runtime's response
  // ---------------------------------------------------------------------

  /** The field name a kept stream line must start with. */
  const DataPrefix: string := "data: "

  /** The event-stream loop: blank lines are skipped, only lines starting with
      exactly "data: " are kept, with those six characters removed, in order. */
  function ExtractData(lines: seq<string>): (r: seq<string>)
    ensures |r| <= |lines|
    ensures forall i :: 0 <= i < |r| ==> DataPrefix + r[i] in lines
  {
    if lines == [] then []
    else
      var rest := ExtractData(lines[1..]);
      if lines[0] != "" && StartsWith(lines[0], DataPrefix) then
        assert lines[0] == DataPrefix + lines[0][6..];
        [lines[0][6..]] + rest
      else rest
  }

  /** Extraction distributes over concatenation of the stream. */
  lemma {:induction false} ExtractDataAppend(a: seq<string>, b: seq<string>)
    ensures ExtractData(a + b) == ExtractData(a) + ExtractData(b)
    decreases |a|
  {
    if a == [] {
      assert a + b == b;
    } else {
      assert (a + b)[1..] == a[1..] + b;
      ExtractDataAppend(a[1..], b);
    }
  }

  /** The stream that carries each payload as one "data: " line followed by
      the blank line that ends an event. */
  function Frame(payloads: seq<string>): (lines: seq<string>)
    ensures |lines| == 2 * |payloads|
  {
    if payloads == [] then [] else [DataPrefix + payloads[0], ""] + Frame(payloads[1..])
  }

  /** Extraction inverts framing: the payloads come back in arrival order. */
  lemma {:induction false} ExtractFramed(payloads: seq<string>)
    ensures ExtractData(Frame(payloads)) == payloads
    decreases |payloads|
  {
    if payloads != [] {
      var line := DataPrefix + payloads[0];
      assert StartsWith(line, DataPrefix) by {
        assert line[..|DataPrefix|] == DataPrefix;
      }
      assert line[6..] == payloads[0];
      ExtractDataAppend([line, ""], Frame(payloads[1..]));
      assert [line, ""][1..] == [""];
      assert [""][1..] == [];
      ExtractFramed(payloads[1..]);
    }
  }

  /** A line that does not start with exactly "data: " contributes nothing;
      in particular "data:" without the space, which an event-stream parser
      would accept, is dropped. */
  lemma NonDataLineDropped(line: string)
    requires !StartsWith(line, DataPrefix)
    ensures ExtractData([line]) == []
  {
    assert [line][1..] == [];
  }

  /** The `data:` field without a space is not recognised. */
  lemma UnspacedDataDropped()
    ensures ExtractData(["data:42"]) == []
  {
    assert "data:42"[5] != DataPrefix[5];
    NonDataLineDropped("data:42");
  }

  /** The response of `invoke_agent_runtime` as far as the handler reads it:
      the content type (`None` when missing) and the body, already split into
      decoded lines for a stream or into decoded chunks otherwise (`None`
      when the "response" member is missing). */
  datatype AgentResponse = AgentResponse(contentType: Option<string>, body: Option<seq<string>>)

  /** `content if content else None`. */
  function NonEmpty(content: seq<string>): (r: Option<seq<string>>)
    ensures r.None? <==> content == []
    ensures r.Some? ==> r.value == content
  {
    if content == [] then None else Some(content)
  }

  /** The "response" field the handler reports for an agent answer. A
      content type containing "text/event-stream" is read as a stream (a
      missing body raises `KeyError`); exactly "application/json" collects the
      chunks (a missing body counts as none). Any other content type reaches
      `json.loads` on a dictionary, which raises. */
  function ReadAgentResponse(resp: AgentResponse): (r: Outcome<Option<seq<string>>>)
    ensures var ct := resp.contentType.GetOr("");
            && (Contains(ct, "text/event-stream") ==>
                  (resp.body.None? ==> r.Raised?)
                  && (resp.body.Some? ==> r == Returned(NonEmpty(ExtractData(resp.body.value)))))
            && (!Contains(ct, "text/event-stream") && resp.contentType == Some("application/json") ==>
                  r == Returned(NonEmpty(resp.body.GetOr([]))))
            && (!Contains(ct, "text/event-stream") && resp.contentType != Some("application/json") ==>
                  r.Raised?)
  {
    if Contains(resp.contentType.GetOr(""), "text/event-stream") then
      match resp.body
      case None => Raised
      case Some(lines) => Returned(NonEmpty(ExtractData(lines)))
    else if resp.contentType == Some("application/json") then
      Returned(NonEmpty(resp.body.GetOr([])))
    else Raised
  }

  // ---------------------------------------------------------------------
  // lambda_handler: routing
  // ---------------------------------------------------------------------

  /** The request event: its query-string parameters (`None` when missing or
      null) and its raw path (`None` when missing). */
  datatype Event = Event(queryParameters: Option<map<string, string>>, rawPath: Option<string>)

  /** What the handler returns: the 400 answer, the search answer with its
      records, or the agent answer with its "response" field. */
  datatype HandlerResult =
    | BadRequest
    | SearchAnswer(records: seq<SearchRecord>)
    | AgentAnswer(response: Option<seq<string>>)
  {
    /** Every answer but the 400 one carries status 200. */
    function StatusCode(): int {
      if BadRequest? then 400 else 200
    }
  }

  /** `json.dumps('Missing query parameters')`, the body of the 400 answer. */
  const MissingParametersBody: string := "\"Missing query parameters\""

  /** A call the handler makes to a foreign service. */
  datatype Call =
    | SearchProvider(params: QueryString)
    | InvokeAgentRuntime(payload: map<string, Option<string>>)

  /** The handler's result and the calls it made. */
  datatype Handled = Handled(result: Outcome<HandlerResult>, calls: seq<Call>)

  /** `query_parameters.get(key)`. */
  function QueryParam(params: map<string, string>, key: string): Option<string> {
    if key in params then Some(params[key]) else None
  }

  /** The payload sent to the agent runtime: its keys renamed from the
      query-string names. */
  function InvokePayload(params: map<string, string>): (p: map<string, Option<string>>)
    ensures p.Keys == {"stock_name", "ticker_symbol", "actor_id"}
    ensures p["stock_name"] == QueryParam(params, "stockname")
    ensures p["ticker_symbol"] == QueryParam(params, "ticker_symbol")
    ensures p["actor_id"] == QueryParam(params, "actor_id")
  {
    map["stock_name" := QueryParam(params, "stockname"),
        "ticker_symbol" := QueryParam(params, "ticker_symbol"),
        "actor_id" := QueryParam(params, "actor_id")]
  }

  /** `lambda_handler(event, context)`, given what the search provider and the
      agent runtime answer. Missing or empty parameters give the 400 answer
      without any call; a missing raw path raises; a path containing "/search"
      searches for "_q"; any other path invokes the agent. */
  function LambdaHandler(ev: Event, search: Outcome<QuotesField>, agent: Outcome<AgentResponse>): (h: Handled)
    ensures (ev.queryParameters.None? || ev.queryParameters == Some(map[])) <==> h.result == Returned(BadRequest)
    ensures h.result == Returned(BadRequest) ==> h.calls == []
    ensures ev.queryParameters.Some? && ev.queryParameters != Some(map[]) && ev.rawPath.None? ==> h == Handled(Raised, [])
    ensures ev.queryParameters.Some? && ev.queryParameters != Some(map[]) && ev.rawPath.Some? ==>
              var params := ev.queryParameters.value;
              if Contains(ev.rawPath.value, "/search") then
                && h.calls == [SearchProvider(SearchParams(DefaultOptions(QueryParam(params, "_q"))))]
                && (h.result.Returned? <==> SearchStocks(search).Returned?)
                && (h.result.Returned? ==> h.result.value == SearchAnswer(SearchStocks(search).value))
              else
                && h.calls == [InvokeAgentRuntime(InvokePayload(params))]
                && (h.result.Returned? <==> agent.Returned? && ReadAgentResponse(agent.value).Returned?)
                && (h.result.Returned? ==> h.result.value == AgentAnswer(ReadAgentResponse(agent.value).value))
  {
    match ev.queryParameters
    case None => Handled(Returned(BadRequest), [])
    case Some(params) =>
      if params == map[] then Handled(Returned(BadRequest), [])
      else
        match ev.rawPath
        case None => Handled(Raised, [])
        case Some(path) =>
          if Contains(path, "/search") then
            var call := SearchProvider(SearchParams(DefaultOptions(QueryParam(params, "_q"))));
            match SearchStocks(search)
            case Raised => Handled(Raised, [call])
            case Returned(records) => Handled(Returned(SearchAnswer(records)), [call])
          else
            var call := InvokeAgentRuntime(InvokePayload(params));
            match agent
            case Raised => Handled(Raised, [call])
            case Returned(resp) =>
              match ReadAgentResponse(resp)
              case Raised => Handled(Raised, [call])
              case Returned(content) => Handled(Returned(AgentAnswer(content)), [call])
  }

  /** A handled search sends every flag in lower case and a recommendation
      count of 5, and asks for exactly the "_q" parameter. */
  lemma SearchCallEncoding(ev: Event, search: Outcome<QuotesField>, agent: Outcome<AgentResponse>)
    requires ev.queryParameters.Some? && ev.queryParameters != Some(map[])
    requires ev.rawPath.Some? && Contains(ev.rawPath.value, "/search")
    ensures var h := LambdaHandler(ev, search, agent);
            && |h.calls| == 1 && h.calls[0].SearchProvider?
            && DecodeParams(h.calls[0].params) == Some(DefaultOptions(QueryParam(ev.queryParameters.value, "_q")))
            && h.calls[0].params.q == QueryParam(ev.queryParameters.value, "_q")
            && h.calls[0].params.recommendCount == "5"
            && forall i :: 0 <= i < 10 ==> h.calls[0].params.Flags()[i] in {"true", "false"}
  {
    var o := DefaultOptions(QueryParam(ev.queryParameters.value, "_q"));
    SearchParamsRoundTrip(o);
    assert Decimal(5) == "5";
  }

  /** A report request relays what the agent streams: payloads framed as an
      event stream come back as the "response" field in arrival order, and
      as `null` when there are none. */
  lemma AgentStreamRelayed(ev: Event, search: Outcome<QuotesField>, payloads: seq<string>)
    requires ev.queryParameters.Some? && ev.queryParameters != Some(map[])
    requires ev.rawPath.Some? && !Contains(ev.rawPath.value, "/search")
    ensures LambdaHandler(ev, search, Returned(AgentResponse(Some("text/event-stream"), Some(Frame(payloads))))).result
         == Returned(AgentAnswer(if payloads == [] then None else Some(payloads)))
  {
    ExtractFramed(payloads);
    var ct := "text/event-stream";
    assert Contains(ct, ct) by {
      assert ct[..|ct|] == ct;
    }
  }

  /** The agent runtime reads back the run's arguments from the gateway's
      payload: stock name, ticker and actor are the query's "stockname",
      "ticker_symbol" and "actor_id", `None` when absent. */
  lemma PayloadReachesRun(params: map<string, string>)
    ensures Orchestrator.RequestOf(InvokePayload(params))
         == Orchestrator.Request(QueryParam(params, "stockname"), QueryParam(params, "ticker_symbol"),
                                 QueryParam(params, "actor_id"))
  {
  }
}
