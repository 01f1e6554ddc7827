# StockEquityX decision logic in Dafny

This project models the deterministic logic of StockEquityX, a stock-analysis
assistant. It covers three layers:

- the agent runtime (`agent_deployment/agent.py`). This is `MasterAgent.run`, which fans out three data tasks, folds their results, consults and appends to a memory service, asks a summariser and a report generator, and publishes the report to object storage behind a presigned URL. It also includes the runtime entry point `strands_agent_bedrock`;
- the HTTP gateway (`backend/invoke.py`). It handles the search of equities with its query-flag encoding, request routing, and the extraction of `data: ` lines from the agent's event stream;
- the Angular front end. This covers the recent-search list kept in `localStorage` (`stock.service.ts`), the dashboard's search normalisation and form transitions (`dashboard.component.ts`), and the session flag and route guard (`auth.service.ts`, `auth/auth-guard.ts`).

Every foreign call is an input to the model: LLM agents, market data, the memory service, object storage, HTTP and the clock. A call that may fail is a raised-or-returned `Outcome`. An agent whose prompt depends on earlier results is a function from its input to such an outcome. The run is a pure function that returns its outcome together with the trace of calls it made (`Effect`). `localStorage` is a map from strings to strings.

Files, one module each:

- `wrappers.dfy`: `Option` and `Outcome`.
- `values.dfy`: JavaScript/Python scalars and their truthiness.
- `text.dfy`: prefixes, substring search, chunk joins and decimal rendering.
- `agent_types.dfy`: the run's data and its effect trace.
- `memory.dfy`: `MemoryInstance`.
- `publish.dfy`: upload, storage key and presigned URL.
- `orchestrator.dfy`: fan-in, `run` and the entry point.
- `gateway.dfy`: `backend/invoke.py`.
- `local_store.dfy`: `localStorage`.
- `history_json.dfy`: `JSON.stringify`/`JSON.parse` of the saved list.
- `stock_service.dfy`: `StockService`.
- `dashboard.dfy`: `DashboardComponent`.
- `auth.dfy`: `AuthService` and `AuthGuard`.

Where the code departs from the design it is meant to implement, the model
follows the code:

- The summariser and the report generator receive the raw value of the future that returned last, not the assembled results map. `Orchestrator.LastValueDependsOnOrder` exhibits two completion orders that hand them different values.
- `performance_bedrock_agent` calls `.get` on `stock_information` outside its own `try`. A price lookup that yields `None` or raises therefore aborts the run, so `run` returns `None` (`Orchestrator.MissingPriceAbortsRun`). Once that step has passed, the later `results["stock_current_price"]` lookup cannot raise (`Orchestrator.PriceKeyPresentAfterPerformance`).
- The upload's boolean result is ignored. A URL is minted for an object whose upload failed (`Orchestrator.UploadFailureStillYieldsUrl`).
- `run`'s `except` returns `None`. `list_memory_instances` is called before the `try`, so an exception from the memory listing escapes `run`, and the entry point answers `{}`.
- In the gateway, `requests` drops a `None` parameter, so `q` is absent when `_q` is missing. A `rawPath` that is missing makes the `in` test raise. The last branch calls `json.loads` on a dictionary, which always raises.
- Only lines starting with exactly `data: ` (with the space) are kept from the event stream. `data:42` is dropped (`Gateway.UnspacedDataDropped`). This is a narrow subset of the event-stream format of the HTML Living Standard, section 9.2.5.

## Model

| member | source | states |
|---|---|---|
| Publish.UploadToS3 | agent_deployment/agent.py:45-62 | `upload_to_s3` returns true exactly on success. It returns false exactly for a missing file, missing credentials or a client error. Any other failure propagates. |
| Memory.FilterByName | agent_deployment/agent.py:70-74 | The comprehension raises exactly when some listed record has no `id`. Otherwise it keeps only records whose id starts with `FinanceAgentMemory`; it is empty iff none does, and its head is the first match. |
| Memory.ListMemoryInstances | agent_deployment/agent.py:70-80 | Raises iff the listing raises or an id is missing. Otherwise it gives the `memoryId` of the first record whose id carries the prefix, and `None` for an empty or non-matching list. |
| Memory.FirstMatchUnique | agent_deployment/agent.py:74-77 | The first matching record is unique, so the lookup is well defined. |
| Memory.ResolveMemory | agent_deployment/agent.py:657-663 | A creation call happens iff the lookup gave no usable id. The id used is the looked-up one when present, and otherwise the creation result, whose failure is `None`. A listing failure raises. |
| Memory.ResolveIdempotentWhenPresent | agent_deployment/agent.py:657-663 | When a memory exists, the creation outcome is irrelevant and only the listing call is made. |
| Memory.SaveDataMemory | agent_deployment/agent.py:109-123 | Saving makes exactly one event call: one assistant message under the fixed session, for the given memory and actor, with the event text below. |
| Memory.EventTextLayout | agent_deployment/agent.py:112-118 | The event text is `Interaction At: {timestamp} (UTC) \n\n Stock Name: ` followed by the share name as Python prints it, and nothing else. |
| Memory.EventNamesShare | agent_deployment/agent.py:112-118 | At the same timestamp, two saves write the same text exactly when their share names print alike. |
| Memory.LabelTurns | agent_deployment/agent.py:145-148 | The flattened context has one entry per message of every turn. |
| Memory.LabelTurnsAt | agent_deployment/agent.py:145-148 | Message `j` of turn `t` is numbered `j + 1` within its turn, at its flattened position. |
| Memory.RetrieveMemory | agent_deployment/agent.py:125-155 | Returns nothing and makes no call when the actor or the session id is empty. Otherwise it asks for the last 5 turns (at most 5 results). It returns nothing when no turns come back and the labelled messages of every turn otherwise. |
| Orchestrator.Record | agent_deployment/agent.py:676-696 | A returning task adds exactly its own keys; the price task adds both `stock_information` and `stock_current_price`. A raising task changes nothing, and other keys keep their values. |
| Orchestrator.FanIn | agent_deployment/agent.py:672-696 | The loop writes only the four fan-in keys. What it writes is given by `FanInIsAssembled`. |
| Orchestrator.FanInLast | agent_deployment/agent.py:676-679 | After the loop, `result` is bound iff some future returned. It then holds the raw value of the last one to return in completion order. |
| Orchestrator.RecordExtendsAssembled | agent_deployment/agent.py:676-696 | Handling one more completed task extends the order-free reference map by that task's keys. |
| Orchestrator.FanInIsAssembled | agent_deployment/agent.py:665-696 | For any completion order without repeats, the loop builds the reference map: the keys of the returning tasks it has seen, each with its task's value. |
| Orchestrator.FanInOrderIndependent | agent_deployment/agent.py:665-696 | Any two completion orders of the three futures give the same results map. |
| Orchestrator.SiblingsUnaffected | agent_deployment/agent.py:676-696 | A fan-in key is present iff its own task returned, and then holds that task's value, whatever the sibling tasks did. |
| Orchestrator.LastValueDependsOnOrder | agent_deployment/agent.py:676-711 | Two completion orders of the same outcomes leave different values in `result`. |
| Orchestrator.StockKeysTogether | agent_deployment/agent.py:681-684 | `stock_information` and `stock_current_price` are present together, and only after the price task returned. |
| Orchestrator.SnapshotAfterFanIn | agent_deployment/agent.py:248-253 | The snapshot that reaches the performance step is the one the price task returned, or none when that task raised. |
| Orchestrator.PriceKeyPresentAfterPerformance | agent_deployment/agent.py:699-711 | Once the performance step has its snapshot, `results["stock_current_price"]` exists and `result` is bound. |
| Orchestrator.Conclude | agent_deployment/agent.py:706-736 | Memory is read before this run's single event is written. Nothing after the summary raises out of `run`. Only the report generator and publication calls follow. A completed run with a URL published properly. |
| Orchestrator.Analyse | agent_deployment/agent.py:665-736 | A missing snapshot returns `None` with no agent call. The summariser and the report generator receive the last returned raw value. A completion carries the summariser's text. |
| Orchestrator.Run | agent_deployment/agent.py:650-739 | The first call is the memory listing, and only its failure escapes. Creation happens iff no memory was found. Reads precede the one write, which is this run's event. A missing snapshot gives `None`. A URL implies a non-empty report, an existing file and the minted URL. |
| Orchestrator.ConcludeEndings | agent_deployment/agent.py:706-739 | The steps after the summary end in `None` exactly when the price-key lookup, the report generator, or the write, upload or presigning raises. Otherwise they return the summary with the publication's URL. They append exactly one event. |
| Orchestrator.AnalyseEndings | agent_deployment/agent.py:665-739 | The `try` body ends in `None` exactly when a step raises: no snapshot for the performance step, a raising performance agent, an unbound `result`, a raising summariser, or a raising later step. It appends exactly one event once past the summariser, none before. |
| Orchestrator.RunEndings | agent_deployment/agent.py:655-739 | `run` returns `None` exactly when the listing returned and some step inside the `try` raised. It completes exactly when the listing returned and nothing raised, with the later steps' result. It appends exactly one event when it gets past the summariser, none otherwise. |
| Orchestrator.RunCompletesWhenServicesSucceed | agent_deployment/agent.py:650-736 | With every service succeeding, the run returns the summary and the presigned URL. |
| Orchestrator.MissingPriceAbortsRun | agent_deployment/agent.py:248-253 | Once the memory listing has returned, a price lookup that yields nothing or raises makes the run return `None`. |
| Orchestrator.UploadFailureStillYieldsUrl | agent_deployment/agent.py:721-732 | A failed upload (missing file, credentials or client error) gives the same run outcome as a successful one. |
| Orchestrator.ConcludeIgnoresUpload | agent_deployment/agent.py:721-736 | The steps after the summary end the same way whatever the handled upload result. |
| Orchestrator.RequestOf | agent_deployment/agent.py:769-771 | Each run argument is the payload's value for its key, or `None` when the key is missing. |
| Orchestrator.EntryPoint | agent_deployment/agent.py:757-787 | The entry point answers `{}` exactly when its own decoding fails or an exception escapes `run`. Otherwise it passes on `run`'s result (`None` or the summary/report pair). |
| Publish.StorageKeyLayout | agent_deployment/agent.py:715-722 | The key is `analysis-result-{share}-{ticker}/{share}_report_{uuid}.html`. |
| Publish.StorageKeyInjective | agent_deployment/agent.py:715-722 | Different run identifiers give different storage keys. |
| Publish.PublishReport | agent_deployment/agent.py:713-732 | A URL comes out iff the report is non-empty, the file is written and found, the upload does not propagate and presigning succeeds; it is the presigned one. Publication raises iff the report is non-empty and the write raises, or the file is found and the upload propagates or presigning raises. Nothing is called without a non-empty report and a found file. Otherwise it uploads to the key and then presigns it for 21600 seconds. |
| Publish.UrlIgnoresUploadResult | agent_deployment/agent.py:723-732 | Publication is identical for a successful upload and for any handled upload failure. |
| Gateway.FlagText | backend/invoke.py:32 | A flag is sent as `"true"` or `"false"`. |
| Gateway.FlagRoundTrip | backend/invoke.py:32 | The lower-case text of a flag reads back as that flag. |
| Gateway.SearchParams | backend/invoke.py:28-46 | `q` is sent iff the query is present, and then holds it. All ten flags are sent as `"true"` or `"false"`, and the count as a non-empty run of decimal digits. |
| Gateway.SearchParamsRoundTrip | backend/invoke.py:6-46 | The query string determines the search options: decoding the sent parameters gives back every option. |
| Gateway.FilterQuotes | backend/invoke.py:59-72 | One record per equity quote, never more than the quotes. Each record has exactly the seven fields, and its `quote_type` is `"EQUITY"`. |
| Gateway.FilterQuotesAppend | backend/invoke.py:60-70 | Filtering distributes over concatenation, so equities keep their order. |
| Gateway.FilterQuotesSingle | backend/invoke.py:61-70 | A single quote yields its record iff it is an equity. |
| Gateway.ProjectCopiesFields | backend/invoke.py:62-70 | Each output field is the quote's field (`quote_type` from `quoteType`). |
| Gateway.AllEquitiesKept | backend/invoke.py:59-72 | When every quote is an equity, each one is projected at its own position. |
| Gateway.SearchStocks | backend/invoke.py:57-72 | A response without `quotes` gives `[]`. It fails iff the provider call fails or `quotes` is not iterable. A list gives as many records as equities. |
| Gateway.ExtractData | backend/invoke.py:119-126 | Every kept chunk is a stream line with `data: ` removed, and there are never more chunks than lines. |
| Gateway.ExtractDataAppend | backend/invoke.py:121-126 | Extraction distributes over concatenation, so chunks keep their arrival order. |
| Gateway.ExtractFramed | backend/invoke.py:121-126 | Payloads framed as `data: ` lines separated by blank lines come out exactly, in order. |
| Gateway.NonDataLineDropped | backend/invoke.py:124 | A line not starting with `data: ` contributes nothing. |
| Gateway.UnspacedDataDropped | backend/invoke.py:124 | `data:` without the space is dropped. |
| Gateway.NonEmpty | backend/invoke.py:128-144 | The response field is null iff nothing was collected, and otherwise the list of chunks. |
| Gateway.ReadAgentResponse | backend/invoke.py:119-154 | An event stream gives its extracted data lines, and exact `application/json` gives its chunks, each null when empty. Any other content type raises. |
| Gateway.InvokePayload | backend/invoke.py:106-110 | The agent payload holds exactly `stock_name`, `ticker_symbol` and `actor_id`, taken from `stockname`, `ticker_symbol` and `actor_id`. |
| Gateway.LambdaHandler | backend/invoke.py:76-154 | Missing or empty query parameters give status 400 and make no call. A `rawPath` containing `/search` makes exactly the search call with `_q`; any other path makes exactly the agent call. The agent path answers iff the runtime answers and its response is read without raising, and then the "response" field is what the reading gives. |
| Gateway.AgentStreamRelayed | backend/invoke.py:119-144 | Payloads the agent streams as `data: ` events come back in order as the "response" field, and as `null` when there are none. |
| Gateway.SearchCallEncoding | backend/invoke.py:6-88 | The search call carries the default options for `_q`, every flag as a lower-case boolean and a count of `"5"`. |
| Gateway.PayloadReachesRun | backend/invoke.py:106-110 | The runtime reads back from the gateway's payload exactly the three query parameters. |
| StockService.GetRecentSearches | frontend/src/app/stock.service.ts:101-104 | With nothing (or an empty string) stored it returns `[]`. Otherwise it throws iff the stored text is not one the list decoder reads, which is exactly the `JSON.stringify` form of a saved list. |
| StockService.RemovePair | frontend/src/app/stock.service.ts:93-95 | The filter keeps only entries of other pairs, taken from the list. |
| StockService.RemovePairKeepsOthers | frontend/src/app/stock.service.ts:93-95 | Every entry of another pair survives the filter. |
| StockService.RemovePairSubsequence | frontend/src/app/stock.service.ts:93-95 | The filter keeps the survivors in their order. |
| StockService.Remember | frontend/src/app/stock.service.ts:86-98 | The new list has 1 to 5 entries and starts with the new one. No other entry has its pair, and the rest is an ordered subsequence of the old list. |
| StockService.RememberKeepsRecentOthers | frontend/src/app/stock.service.ts:93-98 | Each of the first four surviving older entries follows the new one at its filtered position. |
| StockService.RememberTwice | frontend/src/app/stock.service.ts:93-98 | Remembering the same pair twice gives the same sequence of pairs as once. |
| StockService.SaveSearch | frontend/src/app/stock.service.ts:85-98 | Saving throws iff reading the list throws. Otherwise the stored list reads back as the remembered list, and no other key changes. |
| StockService.SavedSearchComesFirst | frontend/src/app/stock.service.ts:85-104 | After a save, the read-back list starts with the new entry, has at most 5 entries and no other entry for the pair, and keeps the older survivors in order. |
| StockService.SaveSearchIdempotentOnPairs | frontend/src/app/stock.service.ts:85-104 | Saving the same pair twice gives the same stored pairs as saving it once. |
| StockService.ParseIgnoresChunking | frontend/src/app/stock.service.ts:80-83 | Where a chunk boundary falls does not change the parse. |
| StockService.StreamedAnswerParsed | frontend/src/app/stock.service.ts:80-83 | The gateway's extracted chunks parse as the concatenation of the agent's payloads. |
| StockService.ReportParams | frontend/src/app/stock.service.ts:71-75 | The report request carries exactly `stockname`, `ticker_symbol` and the constant `actor_id` `noventiqteam_123`. |
| StockService.ReportRequestReachesRun | frontend/src/app/stock.service.ts:71-75 | The run receives the form's name and ticker and the constant actor. |
| HistoryJson.HistoryRoundTrip | frontend/src/app/stock.service.ts:98-103 | `JSON.parse(JSON.stringify(list))` gives the list back, for any saved entries. |
| HistoryJson.EncodeHistory | frontend/src/app/stock.service.ts:98 | The stored text of a list is a JSON array: it opens with `[` and is never shorter than `[]`. Its round trip is the row above. |
| HistoryJson.DecodeHistory | frontend/src/app/stock.service.ts:103 | `[]` reads as the empty list. What else it reads is fixed by the round trip above and by the Left-out line on `GetRecentSearches`. |
| HistoryJson.EntryRoundTrip | frontend/src/app/stock.service.ts:98-103 | One serialised entry reads back as itself, whatever follows it. |
| HistoryJson.EncodeCharsRoundTrip | frontend/src/app/stock.service.ts:98-103 | The escaped text of any string reads back as that string. |
| Dashboard.DisplayName | frontend/src/app/dashboard.component.ts:624 | `displayName` is `longname` if truthy, else `shortname` if truthy, else `symbol`. |
| Dashboard.ParseSearchResults | frontend/src/app/dashboard.component.ts:615-628 | Non-array input gives `[]`. An array gives one record per item at the same position, copying the six fields and naming the hit. |
| Dashboard.ParseSearchResultsAppend | frontend/src/app/dashboard.component.ts:616-625 | Parsing is item by item and keeps the order. |
| Dashboard.ScoreIgnored | frontend/src/app/dashboard.component.ts:617-625 | An item's `score` has no effect on the records. |
| Dashboard.DisplayNameTruthy | frontend/src/app/dashboard.component.ts:624 | A hit with a truthy symbol has a truthy display name. |
| Dashboard.GatewayRecordsShowAsEquities | frontend/src/app/dashboard.component.ts:615-625 | Every gateway record is shown, as an equity. |
| Dashboard.Initial | frontend/src/app/dashboard.component.ts:508-544 | The initial form has a tip index in range, an empty name and no loading. |
| Dashboard.Utf16Length | frontend/src/app/dashboard.component.ts:589 | A string's JavaScript length lies between its character count and twice that. |
| Dashboard.ShortQueries | frontend/src/app/dashboard.component.ts:589 | A query is below the threshold iff it is empty or one character of the Basic Multilingual Plane. |
| Dashboard.OnSearchInput | frontend/src/app/dashboard.component.ts:584-597 | A search is scheduled iff the query has at least 2 code units. A shorter query clears the results and changes nothing else. |
| Dashboard.SelectStock | frontend/src/app/dashboard.component.ts:630-635 | The form takes the hit's display name and symbol, and the results and query are emptied. |
| Dashboard.LoadSearch | frontend/src/app/dashboard.component.ts:579-582 | The form takes the remembered name and ticker. |
| Dashboard.OnSubmit | frontend/src/app/dashboard.component.ts:688-696 | An empty name or ticker changes nothing. Otherwise the form is loading, the error, data, report frame and report text are reset, and tips restart at 0. |
| Dashboard.TipTick | frontend/src/app/dashboard.component.ts:549-550 | The next tip index is in range and wraps after the twelfth tip. |
| Dashboard.Tick | frontend/src/app/dashboard.component.ts:548-551 | A timer tick keeps the index in range and changes no other field. |
| Dashboard.TicksCycle | frontend/src/app/dashboard.component.ts:546-551 | After a submission, `n` ticks leave the tip index at `n mod 12`. |
| Dashboard.TransitionsKeepValid | frontend/src/app/dashboard.component.ts:517-551 | Every handler keeps the tip index within `financialTips`. |
| Dashboard.SelectedHitSubmits | frontend/src/app/dashboard.component.ts:630-635 | Picking a hit with a symbol makes the form submittable. |
| Dashboard.LoadedSearchSubmits | frontend/src/app/dashboard.component.ts:579-582 | Reloading a remembered search submits its name and ticker. |
| Auth.BoolText | frontend/src/app/auth.service.ts:30 | `String(status)` is `"true"` exactly for `true`, else `"false"`. |
| Auth.GetToken | frontend/src/app/auth.service.ts:23-25 | The token is null exactly when none is stored. |
| Auth.SetLoginStatus | frontend/src/app/auth.service.ts:28-31 | The flag and the stored text follow the status, and no other key changes. |
| Auth.Logout | frontend/src/app/auth.service.ts:33-36 | The flag is cleared and the stored flag removed; no other key changes. |
| Auth.IsAuthenticated | frontend/src/app/auth.service.ts:38-40 | The definition: the in-memory flag is set, or the stored flag reads exactly `"true"`. The lemmas below carry its consequences. |
| Auth.LoginAuthenticates | frontend/src/app/auth.service.ts:28-40 | After `setLoginStatus(true)` the user is authenticated, also after a reload. |
| Auth.FalseStatusSignsOut | frontend/src/app/auth.service.ts:28-40 | After `setLoginStatus(false)`, `"false"` is stored and the user is not authenticated. |
| Auth.LogoutSignsOut | frontend/src/app/auth.service.ts:23-40 | After logout the user is not authenticated, and the token is unchanged. |
| Auth.CanActivate | frontend/src/app/auth/auth-guard.ts:18-36 | The guard allows exactly an authenticated user, without navigating. Otherwise it refuses and navigates to `/login` with `returnUrl` equal to the requested URL. |
| Auth.GuardFollowsSession | frontend/src/app/auth/auth-guard.ts:27-35 | After logout the guard redirects back through login. After logging in it allows without navigating. |
| Auth.SaveSearchKeepsSession | frontend/src/app/stock.service.ts:98 | Saving a search changes neither the authentication nor the token. |
| LocalStore.GetItem | frontend/src/app/stock.service.ts:102 | `getItem` gives the stored string, and null exactly when nothing is stored under the key. |
| LocalStore.SetItem | frontend/src/app/stock.service.ts:98 | `setItem` makes the key read back as the value, and other keys read as before. |
| LocalStore.RemoveItem | frontend/src/app/auth.service.ts:35 | `removeItem` makes the key read as null, and other keys read as before. |
| Text.SplitChunkPreservesConcat | frontend/src/app/stock.service.ts:81 | Splitting one chunk in two does not change the join. |
| Text.DecimalRoundTrip | backend/invoke.py:43 | The decimal text of the count reads back as the count. |

## Left out

- LLM agent construction and prompt text (`agent.py` agents and their prompts): each agent is an uninterpreted function from its input to an optional text, or a raise.
- Market data and news fetching (Yahoo Finance, pandas, DuckDuckGo): the price task's outcome is an input, and the snapshot is abstract.
- Bedrock, object-storage and memory-service calls: only their outcomes are inputs. `create_memory_instance` is represented by its result, where a creation failure is `None`. How the memory service groups events into turns is not modelled, so the retrieval response is an input.
- Thread scheduling: the fan-in takes an arbitrary completion order, and the tasks' outcomes do not depend on it.
- The temporary file: writing it is an input outcome, either raised or followed by whether `os.path.exists` finds the file. Which paths fail to open is the file system's business; a share name holding `/` is one such case, and it makes the run return `None`. The `finally` clean-up is left out.
- `delete_memory_instance`: its only call site is commented out.
- Timestamps, `uuid4` and ISO dates: these are opaque inputs.
- Memory.RetrieveMemory: gives the labelled message list rather than the Python text rendering of that list (`str` of a list inside an f-string).
- Logging and `print`.
- HTTP mechanics in the gateway: headers, `raise_for_status`, the status code of the search provider, the JSON body rendering (`json.dumps`), and the `iter_lines` splitting and UTF-8 decoding of the stream. Lines arrive already split and decoded.
- Gateway.SearchStocks: quote items that are not objects are left out (every item is a map).
- HistoryJson.HistoryRoundTrip: the decoder reads exactly what `JSON.stringify` writes for a list of saved searches. Stored text written by other programs with whitespace, other escapes or other property orders is read as malformed. Surrogate-pair `\u` escapes are left out.
- StockService.GetRecentSearches: the stored text is read by a decoder of the canonical `JSON.stringify` form only. Text that `JSON.parse` accepts in the browser but that is not that form raises in the model, while the source returns the parsed value: `null`, `{}`, `[ ]`, added whitespace, other escapes or another property order.
- Orchestrator.EntryPoint: payload values for `stock_name`, `ticker_symbol` and `actor_id` are strings or `null`. JSON numbers, booleans, lists or objects, which the source passes to `run` and prints into its f-strings, are not represented.
- Dashboard.ParseSearchResults: every array item is an object. A `null` item, on which the source throws when it reads a property, is not represented.
- StockService.ParseStockData: `JSON.parse` of the joined chunks is a parameter, because the report answer is arbitrary JSON.
- `searchStocks` and `getStockReport`'s HTTP calls, bearer-token headers and URL encoding: only the report parameter map is modelled.
- Dashboard: templates and CSS, the `setTimeout` debounce and `setInterval` timer objects, the result and error handlers of the report request, the blob, iframe and download code, and `logout`'s navigation. The tip timer is a `Tick` transition.
- `loadRecentSearches` in the dashboard: it is a direct call of `getRecentSearches`, which is modelled in the recent-search list.
- `AuthService.login` (an HTTP call) and the login component (UI with a timer).
- The deployment script.
