/** The decision logic of `MasterAgent.run` and of the runtime entry point
    `strands_agent_bedrock` (agent_deployment/agent.py). Every agent, market
    data, memory and storage call is an input: either a raised-or-returned
    outcome or, for the agents whose prompt depends on earlier results, a
    function from the agent's input to such an outcome. A run is a pure
    function returning its outcome together with the trace of calls it made. */
module Orchestrator {
  import opened Wrappers
  import opened Values
  import opened Text
  import opened AgentTypes
  import opened Memory
  import opened Publish

  // ---------------------------------------------------------------------
  // Fan-out / fan-in
  // ---------------------------------------------------------------------

  /** Keys of the run's `results` dictionary. */
  const StockInformationKey: string := "stock_information"
  const StockCurrentPriceKey: string := "stock_current_price"
  const BusinessModelKey: string := "company_business_model_data"
  const NewsKey: string := "stock_related_news"
  const PerformanceKey: string := "stock_performance"

  /** The keys the three fan-out tasks write. */
  const FanInKeys: set<string> := {StockInformationKey, StockCurrentPriceKey, BusinessModelKey, NewsKey}

  type Results = map<string, Entry>

  /** What each of the three futures does: raise, or return its value. */
  datatype TaskOutcomes = TaskOutcomes(
    stockInfo: Outcome<(Option<Snapshot>, Option<string>)>,
    businessModel: Outcome<Option<string>>,
    news: Outcome<Option<string>>)

  /** `future.result()` for the named task. */
  function RawValue(name: TaskName, outs: TaskOutcomes): Outcome<TaskValue> {
    match name
    case StockInfoTask =>
      (match outs.stockInfo
       case Raised => Raised
       case Returned(pair) => Returned(PricePair(pair.0, pair.1)))
    case BusinessModelTask =>
      (match outs.businessModel
       case Raised => Raised
       case Returned(text) => Returned(AgentText(text)))
    case NewsTask =>
      (match outs.news
       case Raised => Raised
       case Returned(text) => Returned(AgentText(text)))
  }

  predicate Returns(name: TaskName, outs: TaskOutcomes) {
    RawValue(name, outs).Returned?
  }

  /** The keys the handler for a task writes into `results`. */
  function KeysOf(name: TaskName): set<string> {
    match name
    case StockInfoTask => {StockInformationKey, StockCurrentPriceKey}
    case BusinessModelTask => {BusinessModelKey}
    case NewsTask => {NewsKey}
  }

  /** The task that writes a fan-in key. */
  function Owner(k: string): (t: TaskName)
    requires k in FanInKeys
    ensures k in KeysOf(t)
  {
    if k == StockInformationKey || k == StockCurrentPriceKey then StockInfoTask
    else if k == BusinessModelKey then BusinessModelTask
    else NewsTask
  }

  /** The handler run for one completed future (the body of the `as_completed`
      loop): a task that raises is logged and writes nothing; a task that
      returns writes its own keys. */
  function Record(results: Results, name: TaskName, outs: TaskOutcomes): (r: Results)
    ensures !Returns(name, outs) ==> r == results
    ensures Returns(name, outs) ==> r.Keys == results.Keys + KeysOf(name)
    ensures forall k :: k in results && k !in KeysOf(name) ==> k in r && r[k] == results[k]
    ensures name == StockInfoTask && Returns(name, outs) ==>
              r[StockInformationKey] == InfoEntry(outs.stockInfo.value.0)
              && r[StockCurrentPriceKey] == TextEntry(outs.stockInfo.value.1)
    ensures name == BusinessModelTask && Returns(name, outs) ==> r[BusinessModelKey] == TextEntry(outs.businessModel.value)
    ensures name == NewsTask && Returns(name, outs) ==> r[NewsKey] == TextEntry(outs.news.value)
  {
    match name
    case StockInfoTask =>
      (match outs.stockInfo
       case Raised => results
       case Returned(pair) =>
         results[StockInformationKey := InfoEntry(pair.0)][StockCurrentPriceKey := TextEntry(pair.1)])
    case BusinessModelTask =>
      (match outs.businessModel
       case Raised => results
       case Returned(text) => results[BusinessModelKey := TextEntry(text)])
    case NewsTask =>
      (match outs.news
       case Raised => results
       case Returned(text) => results[NewsKey := TextEntry(text)])
  }

  /** The state after the fan-in loop: the `results` dictionary and the
      variable `result`, which holds the raw value of the last future that
      returned (`None` while no future has returned: the name is unbound). */
  datatype FanState = FanState(results: Results, last: Option<TaskValue>)

  /** The `as_completed` loop over futures completing in `order`. */
  function FanIn(order: seq<TaskName>, outs: TaskOutcomes): (st: FanState)
    ensures st.results.Keys <= FanInKeys
    decreases |order|
  {
    if order == [] then FanState(map[], None)
    else
      var name := order[|order| - 1];
      var st := FanIn(order[..|order| - 1], outs);
      FanState(Record(st.results, name, outs),
               if Returns(name, outs) then Some(RawValue(name, outs).value) else st.last)
  }

  /** Index `i` is the last position of `order` whose task returned. */
  predicate IsLastReturned(order: seq<TaskName>, outs: TaskOutcomes, i: int) {
    0 <= i < |order| && Returns(order[i], outs) && forall j :: i < j < |order| ==> !Returns(order[j], outs)
  }

  /** After the loop, `result` is bound exactly when some future returned, and
      then holds the raw value of the last one to return. */
  lemma {:induction false} FanInLast(order: seq<TaskName>, outs: TaskOutcomes)
    ensures FanIn(order, outs).last.None? <==> forall i :: 0 <= i < |order| ==> !Returns(order[i], outs)
    ensures FanIn(order, outs).last.Some? ==>
              exists i :: IsLastReturned(order, outs, i) && FanIn(order, outs).last.value == RawValue(order[i], outs).value
    decreases |order|
  {
    if order != [] {
      var n := |order| - 1;
      var prefix := order[..n];
      var before := FanIn(prefix, outs).last;
      var after := FanIn(order, outs).last;
      FanInLast(prefix, outs);
      assert after == if Returns(order[n], outs) then Some(RawValue(order[n], outs).value) else before;
      if Returns(order[n], outs) {
        assert IsLastReturned(order, outs, n);
      } else {
        assert forall i :: 0 <= i < n ==> prefix[i] == order[i];
        if before.Some? {
          var i :| IsLastReturned(prefix, outs, i) && before.value == RawValue(prefix[i], outs).value;
          assert IsLastReturned(order, outs, i);
        } else {
          assert forall i :: 0 <= i < |order| ==> !Returns(order[i], outs) by {
            forall i | 0 <= i < |order|
              ensures !Returns(order[i], outs)
            {
              if i < n {
                assert !Returns(prefix[i], outs);
              }
            }
          }
        }
      }
    }
  }

  /** The entry a fan-in key holds once its owner has returned. */
  function EntryFor(k: string, outs: TaskOutcomes): Entry
    requires k in FanInKeys && Returns(Owner(k), outs)
  {
    if k == StockInformationKey then InfoEntry(outs.stockInfo.value.0)
    else if k == StockCurrentPriceKey then TextEntry(outs.stockInfo.value.1)
    else if k == BusinessModelKey then TextEntry(outs.businessModel.value)
    else TextEntry(outs.news.value)
  }

  /** Reference definition of the assembled map, independent of any order:
      exactly the keys of the completed tasks that returned, each holding its
      task's value. */
  function Assembled(done: set<TaskName>, outs: TaskOutcomes): Results {
    map k | k in FanInKeys && Owner(k) in done && Returns(Owner(k), outs) :: EntryFor(k, outs)
  }

  /** One more completed task extends the reference map by that task's keys. */
  lemma RecordExtendsAssembled(done: set<TaskName>, name: TaskName, outs: TaskOutcomes)
    requires name !in done
    ensures Record(Assembled(done, outs), name, outs) == Assembled(done + {name}, outs)
  {
    var lhs := Record(Assembled(done, outs), name, outs);
    var rhs := Assembled(done + {name}, outs);
    assert lhs.Keys == rhs.Keys;
    forall k | k in lhs.Keys
      ensures lhs[k] == rhs[k]
    {
    }
  }

  /** No task completes twice. */
  predicate Distinct(order: seq<TaskName>) {
    forall i, j :: 0 <= i < j < |order| ==> order[i] != order[j]
  }

  /** A possible order of `as_completed`: each of the three futures exactly once. */
  predicate IsCompletionOrder(order: seq<TaskName>) {
    Distinct(order) && StockInfoTask in order && BusinessModelTask in order && NewsTask in order
  }

  /** The tasks that occur in an order. */
  function Done(order: seq<TaskName>): set<TaskName> {
    set t | t in order
  }

  /** The fan-in loop computes the reference map of the tasks it has seen. */
  lemma {:induction false} FanInIsAssembled(order: seq<TaskName>, outs: TaskOutcomes)
    requires Distinct(order)
    ensures FanIn(order, outs).results == Assembled(Done(order), outs)
    decreases |order|
  {
    if order == [] {
      assert Assembled({}, outs) == map[];
    } else {
      var prefix := order[..|order| - 1];
      var name := order[|order| - 1];
      assert Distinct(prefix);
      FanInIsAssembled(prefix, outs);
      assert name !in prefix by {
        forall i | 0 <= i < |prefix| ensures prefix[i] != name {
          assert prefix[i] == order[i];
        }
      }
      RecordExtendsAssembled(Done(prefix), name, outs);
      assert order == prefix + [name];
      assert Done(order) == Done(prefix) + {name};
    }
  }

  /** The assembled map is the same for every completion order of the futures:
      the three tasks write disjoint keys. */
  lemma FanInOrderIndependent(o1: seq<TaskName>, o2: seq<TaskName>, outs: TaskOutcomes)
    requires IsCompletionOrder(o1) && IsCompletionOrder(o2)
    ensures FanIn(o1, outs).results == FanIn(o2, outs).results
  {
    FanInIsAssembled(o1, outs);
    FanInIsAssembled(o2, outs);
    assert Done(o1) == Done(o2);
  }

  /** Exception isolation: whatever a task does, the keys of the other tasks
      hold exactly what those tasks wrote. */
  lemma SiblingsUnaffected(order: seq<TaskName>, outs: TaskOutcomes, k: string)
    requires IsCompletionOrder(order)
    requires k in FanInKeys
    ensures k in FanIn(order, outs).results <==> Returns(Owner(k), outs)
    ensures k in FanIn(order, outs).results ==> FanIn(order, outs).results[k] == EntryFor(k, outs)
  {
    FanInIsAssembled(order, outs);
    assert Owner(k) in order;
  }

  /** Unlike the map, the variable `result` handed on to the summariser does
      depend on the completion order. */
  lemma LastValueDependsOnOrder()
    ensures var outs := TaskOutcomes(Returned((None, None)), Returned(Some("model")), Returned(Some("news")));
            FanIn([StockInfoTask, BusinessModelTask, NewsTask], outs).last == Some(AgentText(Some("news")))
            && FanIn([NewsTask, BusinessModelTask, StockInfoTask], outs).last == Some(PricePair(None, None))
  {
    var outs := TaskOutcomes(Returned((None, None)), Returned(Some("model")), Returned(Some("news")));
    var o1 := [StockInfoTask, BusinessModelTask, NewsTask];
    var o2 := [NewsTask, BusinessModelTask, StockInfoTask];
    assert o1[..2] == [StockInfoTask, BusinessModelTask];
    assert o2[..2] == [NewsTask, BusinessModelTask];
  }


  /** The two keys of the price task are written together, and only by it. */
  lemma {:induction false} StockKeysTogether(order: seq<TaskName>, outs: TaskOutcomes)
    ensures StockInformationKey in FanIn(order, outs).results <==> StockCurrentPriceKey in FanIn(order, outs).results
    ensures StockInformationKey in FanIn(order, outs).results ==> StockInfoTask in order && Returns(StockInfoTask, outs)
    decreases |order|
  {
    if order != [] {
      var prefix := order[..|order| - 1];
      StockKeysTogether(prefix, outs);
      assert order == prefix + [order[|order| - 1]];
    }
  }

  // ---------------------------------------------------------------------
  // The run
  // ---------------------------------------------------------------------

  /** `results.get(key)` for a key holding text; `None` when absent. */
  function TextOf(results: Results, key: string): Option<string> {
    if key in results && results[key].TextEntry? then results[key].text else None
  }

  /** `results.get('stock_information')` when it is a dictionary. Otherwise
      `performance_bedrock_agent` calls `.get` on `None` and raises. */
  function SnapshotOf(results: Results): Option<Snapshot> {
    if StockInformationKey in results && results[StockInformationKey].InfoEntry? then
      results[StockInformationKey].info
    else None
  }

  /** With all three futures completed, the snapshot reaching the performance
      step is the one the price task returned, and none if it raised. */
  lemma SnapshotAfterFanIn(order: seq<TaskName>, outs: TaskOutcomes)
    requires IsCompletionOrder(order)
    ensures SnapshotOf(FanIn(order, outs).results) == (if outs.stockInfo.Returned? then outs.stockInfo.value.0 else None)
  {
    FanInIsAssembled(order, outs);
    assert StockInfoTask in Done(order);
  }

  /** Once the performance step has found its snapshot, the later lookup
      `results["stock_current_price"]` cannot raise and `result` is bound. */
  lemma PriceKeyPresentAfterPerformance(order: seq<TaskName>, outs: TaskOutcomes)
    requires SnapshotOf(FanIn(order, outs).results).Some?
    ensures StockCurrentPriceKey in FanIn(order, outs).results
    ensures FanIn(order, outs).last.Some?
  {
    StockKeysTogether(order, outs);
    FanInLast(order, outs);
    var i :| 0 <= i < |order| && order[i] == StockInfoTask;
  }

  /** The arguments of `MasterAgent.run`; each may be `None` when the payload
      lacked the key. */
  datatype Request = Request(shareName: Option<string>, ticker: Option<string>, actor: Option<string>)

  /** Everything foreign a run depends on. */
  datatype Services = Services(
    listed: Outcome<seq<MemoryRecord>>,
    created: Option<string>,
    tasks: TaskOutcomes,
    order: seq<TaskName>,
    performance: PerformanceInput -> Outcome<Option<string>>,
    summariser: TaskValue -> Outcome<Option<string>>,
    turns: Outcome<seq<seq<Message>>>,
    timestamp: string,
    reportGenerator: ReportInput -> Outcome<Option<string>>,
    uuid: string,
    fileWrite: Outcome<bool>,
    bucket: Option<string>,
    upload: UploadOutcome,
    presign: Outcome<string>)

  /** How `run` ends: it returns the summary/report dictionary, or its `except`
      swallows an exception and it returns `None`, or an exception raised
      before its `try` (by the memory listing) escapes. */
  datatype RunOutcome = Completed(summary: Option<string>, report: Option<string>) | ReturnedNone | Escaped

  datatype RunTrace = RunTrace(outcome: RunOutcome, effects: seq<Effect>)

  /** The performance agent's input for a fan-in state whose snapshot is present. */
  function PerformanceInputOf(req: Request, results: Results): PerformanceInput
    requires SnapshotOf(results).Some?
  {
    PerformanceInput(req.ticker, TextOf(results, NewsKey), SnapshotOf(results).value, TextOf(results, BusinessModelKey))
  }

  /** The storage key a run with these inputs publishes under. */
  function RunStorageKey(req: Request, s: Services): string {
    StorageKey(req.shareName, req.ticker, ReportFileName(req.shareName, s.uuid))
  }

  /** Every memory read of a trace comes before every memory write. */
  predicate ReadsBeforeWrites(es: seq<Effect>) {
    forall i, j :: 0 <= i < |es| && 0 <= j < |es| && es[i].GetLastKTurns? && es[j].CreateEvent? ==> i < j
  }

  lemma ReadsBeforeWritesAppend(a: seq<Effect>, b: seq<Effect>)
    requires ReadsBeforeWrites(a) && ReadsBeforeWrites(b)
    requires (forall e :: e in a ==> !e.CreateEvent?) || (forall e :: e in b ==> !e.GetLastKTurns?)
    ensures ReadsBeforeWrites(a + b)
  {
    var c := a + b;
    forall i, j | 0 <= i < |c| && 0 <= j < |c| && c[i].GetLastKTurns? && c[j].CreateEvent?
      ensures i < j
    {
      if i >= |a| {
        assert c[i] == b[i - |a|];
      } else {
        assert c[i] == a[i];
      }
      if j >= |a| {
        assert c[j] == b[j - |a|];
      } else {
        assert c[j] == a[j];
      }
    }
  }

  /** The report-generation branch of a completed run with a URL: the report
      text was non-empty, the file existed, and the URL is the presigned one. */
  predicate PublishedProperly(req: Request, s: Services, r: RunTrace)
    requires r.outcome.Completed? && r.outcome.report.Some?
  {
    && s.fileWrite == Returned(true)
    && s.presign == Returned(r.outcome.report.value)
    && PresignGet(s.bucket, RunStorageKey(req, s), PresignExpiry) in r.effects
    && exists e :: e in r.effects && e.InvokeReportGenerator?
                   && s.reportGenerator(e.report).Returned? && PyTruthyText(s.reportGenerator(e.report).value)
  }

  /** Calls made before a properly published tail do not undo it. */
  lemma PublishedAfterPrefix(req: Request, s: Services, pre: seq<Effect>, tail: RunTrace)
    ensures tail.outcome.Completed? && tail.outcome.report.Some? && PublishedProperly(req, s, tail) ==>
              PublishedProperly(req, s, RunTrace(tail.outcome, pre + tail.effects))
  {
    if tail.outcome.Completed? && tail.outcome.report.Some? && PublishedProperly(req, s, tail) {
      var e :| e in tail.effects && e.InvokeReportGenerator?
               && s.reportGenerator(e.report).Returned? && PyTruthyText(s.reportGenerator(e.report).value);
      assert e in pre + tail.effects;
    }
  }

  /** The memory steps of the run: read the recent turns, then append this
      run's event, exactly once. */
  function RecallMemory(req: Request, s: Services, memoryId: Option<string>): (m: Retrieval)
    ensures ReadsBeforeWrites(m.effects)
    ensures SaveDataMemory(memoryId, req.shareName, req.actor, s.timestamp) in m.effects
    ensures forall e :: e in m.effects ==> e.GetLastKTurns? || e == SaveDataMemory(memoryId, req.shareName, req.actor, s.timestamp)
    ensures EventCount(m.effects) == 1
  {
    var retrieval := RetrieveMemory(req.actor, SessionId, memoryId, s.turns);
    var save := SaveDataMemory(memoryId, req.shareName, req.actor, s.timestamp);
    ReadsBeforeWritesAppend(retrieval.effects, [save]);
    NoEvents(retrieval.effects);
    EventCountAppend(retrieval.effects, [save]);
    assert [save][1..] == [];
    Retrieval(retrieval.past, retrieval.effects + [save])
  }

  /** The steps after the summary: read recent memory, append this run's event,
      generate the report and publish it. */
  function Conclude(req: Request, s: Services, memoryId: Option<string>, master: TaskValue,
                    summary: Option<string>, results: Results): (r: RunTrace)
    ensures !r.outcome.Escaped?
    ensures ReadsBeforeWrites(r.effects)
    ensures SaveDataMemory(memoryId, req.shareName, req.actor, s.timestamp) in r.effects
    ensures forall e :: e in r.effects ==>
              e != ListMemories && !e.CreateMemory? && !e.InvokePerformance? && !e.InvokeSummariser?
    ensures forall e :: e in r.effects && e.CreateEvent? ==> e == SaveDataMemory(memoryId, req.shareName, req.actor, s.timestamp)
    ensures forall e :: e in r.effects && e.InvokeReportGenerator? ==> e.report.masterResult == master
    ensures r.outcome.Completed? ==> r.outcome.summary == summary
    ensures r.outcome.Completed? && r.outcome.report.Some? ==> PublishedProperly(req, s, r)
  {
    var m := RecallMemory(req, s, memoryId);
    var rep := GenerateReport(req, s, master, summary, m.past, results);
    ReadsBeforeWritesAppend(m.effects, rep.effects);
    PublishedAfterPrefix(req, s, m.effects, rep);
    RunTrace(rep.outcome, m.effects + rep.effects)
  }

  /** The report step: the lookup `results["stock_current_price"]`, the report
      generator's call, and the publication of what it returns. */
  function GenerateReport(req: Request, s: Services, master: TaskValue, summary: Option<string>,
                          past: Option<seq<string>>, results: Results): (r: RunTrace)
    ensures !r.outcome.Escaped?
    ensures forall e :: e in r.effects ==>
              (e.InvokeReportGenerator? && e.report.masterResult == master) || e.UploadFile? || e.PresignGet?
    ensures ReadsBeforeWrites(r.effects)
    ensures r.outcome.Completed? ==> r.outcome.summary == summary
    ensures r.outcome.Completed? && r.outcome.report.Some? ==> PublishedProperly(req, s, r)
  {
    if StockCurrentPriceKey !in results then RunTrace(ReturnedNone, [])
    else
      var repIn := ReportInput(master, summary, past, TextOf(results, StockCurrentPriceKey));
      match s.reportGenerator(repIn)
      case Raised => RunTrace(ReturnedNone, [InvokeReportGenerator(repIn)])
      case Returned(html) =>
        var d := Deliver(req, s, summary, html);
        var es := [InvokeReportGenerator(repIn)] + d.effects;
        assert InvokeReportGenerator(repIn) in es;
        RunTrace(d.outcome, es)
  }

  /** The end of the run once the report generator has answered `html`: the
      publication, then the summary/report dictionary. */
  function Deliver(req: Request, s: Services, summary: Option<string>, html: Option<string>): (r: RunTrace)
    ensures !r.outcome.Escaped?
    ensures forall e :: e in r.effects ==> e.UploadFile? || e.PresignGet?
    ensures r.outcome.Completed? ==> r.outcome.summary == summary
    ensures r.outcome.Completed? && r.outcome.report.Some? ==>
              && PyTruthyText(html)
              && s.fileWrite == Returned(true)
              && s.presign == Returned(r.outcome.report.value)
              && PresignGet(s.bucket, RunStorageKey(req, s), PresignExpiry) in r.effects
  {
    var pub := PublicationOf(req, s, html);
    match pub.url
    case Raised => RunTrace(ReturnedNone, pub.effects)
    case Returned(url) => RunTrace(Completed(summary, url), pub.effects)
  }

  /** The `try` body from the fan-in up to the end, given the resolved memory id. */
  function Analyse(req: Request, s: Services, memoryId: Option<string>): (r: RunTrace)
    ensures !r.outcome.Escaped?
    ensures SnapshotOf(FanIn(s.order, s.tasks).results).None? ==> r == RunTrace(ReturnedNone, [])
    ensures ReadsBeforeWrites(r.effects)
    ensures forall e :: e in r.effects ==> e != ListMemories && !e.CreateMemory?
    ensures forall e :: e in r.effects && e.InvokeSummariser? ==> Some(e.master) == FanIn(s.order, s.tasks).last
    ensures forall e :: e in r.effects && e.InvokeReportGenerator? ==> Some(e.report.masterResult) == FanIn(s.order, s.tasks).last
    ensures forall e :: e in r.effects && e.CreateEvent? ==> e == SaveDataMemory(memoryId, req.shareName, req.actor, s.timestamp)
    ensures r.outcome.Completed? ==>
              FanIn(s.order, s.tasks).last.Some?
              && s.summariser(FanIn(s.order, s.tasks).last.value) == Returned(r.outcome.summary)
    ensures r.outcome.Completed? && r.outcome.report.Some? ==> PublishedProperly(req, s, r)
  {
    var fan := FanIn(s.order, s.tasks);
    if SnapshotOf(fan.results).None? then RunTrace(ReturnedNone, [])
    else
      var perfIn := PerformanceInputOf(req, fan.results);
      var e1 := [InvokePerformance(perfIn)];
      match s.performance(perfIn)
      case Raised => RunTrace(ReturnedNone, e1)
      case Returned(perf) =>
        match fan.last
        case None => RunTrace(ReturnedNone, e1)
        case Some(master) =>
          var e2 := e1 + [InvokeSummariser(master)];
          match s.summariser(master)
          case Raised => RunTrace(ReturnedNone, e2)
          case Returned(summary) =>
            var tail := Conclude(req, s, memoryId, master, summary, fan.results[PerformanceKey := TextEntry(perf)]);
            ReadsBeforeWritesAppend(e2, tail.effects);
            PublishedAfterPrefix(req, s, e2, tail);
            RunTrace(tail.outcome, e2 + tail.effects)
  }

  /** `MasterAgent.run(share_name, ticker_symbol, ACTOR_ID)`. */
  function Run(req: Request, s: Services): (r: RunTrace)
    ensures |r.effects| >= 1 && r.effects[0] == ListMemories
    ensures r.outcome.Escaped? <==> ListMemoryInstances(s.listed).Raised?
    ensures r.outcome.Escaped? ==> r.effects == [ListMemories]
    ensures !r.outcome.Escaped? ==>
              (CreateCall in r.effects <==> !PyTruthyText(ListMemoryInstances(s.listed).value))
    ensures !r.outcome.Escaped? && SnapshotOf(FanIn(s.order, s.tasks).results).None? ==> r.outcome == ReturnedNone
    ensures ReadsBeforeWrites(r.effects)
    ensures forall e :: e in r.effects && e.CreateEvent? ==>
              e == SaveDataMemory(ResolveMemory(s.listed, s.created).value.memoryId, req.shareName, req.actor, s.timestamp)
    ensures forall e :: e in r.effects && e.InvokeSummariser? ==> Some(e.master) == FanIn(s.order, s.tasks).last
    ensures forall e :: e in r.effects && e.InvokeReportGenerator? ==> Some(e.report.masterResult) == FanIn(s.order, s.tasks).last
    ensures r.outcome.Completed? ==>
              FanIn(s.order, s.tasks).last.Some?
              && s.summariser(FanIn(s.order, s.tasks).last.value) == Returned(r.outcome.summary)
    ensures r.outcome.Completed? && r.outcome.report.Some? ==> PublishedProperly(req, s, r)
  {
    match ResolveMemory(s.listed, s.created)
    case Raised => RunTrace(Escaped, [ListMemories])
    case Returned(res) =>
      var tail := Analyse(req, s, res.memoryId);
      assert forall e :: e in res.effects ==> !e.CreateEvent?;
      ReadsBeforeWritesAppend(res.effects, tail.effects);
      PublishedAfterPrefix(req, s, res.effects, tail);
      RunTrace(tail.outcome, res.effects + tail.effects)
  }

  /** Scenario: when every foreign call succeeds (a matching memory exists, the
      price task returns a snapshot, each agent returns text, the report is
      non-empty, the file is written and the URL minted), the run returns the
      summary and the URL. */
  lemma RunCompletesWhenServicesSucceed(req: Request, s: Services, snapshot: Snapshot, summary: string, url: string)
    requires IsCompletionOrder(s.order)
    requires ListMemoryInstances(s.listed).Returned?
    requires s.tasks.stockInfo.Returned? && s.tasks.stockInfo.value.0 == Some(snapshot)
    requires forall p :: s.performance(p).Returned?
    requires forall m :: s.summariser(m) == Returned(Some(summary))
    requires forall i :: s.reportGenerator(i).Returned? && PyTruthyText(s.reportGenerator(i).value)
    requires s.fileWrite == Returned(true) && s.upload != OtherFailure && s.presign == Returned(url)
    ensures Run(req, s).outcome == Completed(Some(summary), Some(url))
  {
    SnapshotAfterFanIn(s.order, s.tasks);
    PriceKeyPresentAfterPerformance(s.order, s.tasks);
    RunEndings(req, s);
    var a := SummaryOf(req, s).value;
    var id := ResolveMemory(s.listed, s.created).value.memoryId;
    ConcludeEndings(req, s, id, a.master, a.summary, a.results);
  }

  /** Scenario: a price lookup that finds nothing (`(None, None)`) or raises
      makes `performance_bedrock_agent` raise, so the run returns `None`
      instead of a degraded summary. */
  lemma MissingPriceAbortsRun(req: Request, s: Services)
    requires IsCompletionOrder(s.order)
    requires ListMemoryInstances(s.listed).Returned?
    requires s.tasks.stockInfo.Raised? || s.tasks.stockInfo.value.0.None?
    ensures Run(req, s).outcome == ReturnedNone
  {
    SnapshotAfterFanIn(s.order, s.tasks);
  }

  /** Scenario: an upload that fails with missing credentials, a missing file
      or a client error changes nothing about the run; in particular a URL is
      still minted for the object that was not uploaded. */
  lemma UploadFailureStillYieldsUrl(req: Request, s: Services, failure: UploadOutcome)
    requires failure == FileMissing || failure == NoCredentials || failure == ClientFailure
    ensures Run(req, s.(upload := failure)).outcome == Run(req, s.(upload := Uploaded)).outcome
  {
    var s1, s2 := s.(upload := failure), s.(upload := Uploaded);
    match ResolveMemory(s.listed, s.created)
    case Raised =>
    case Returned(res) =>
      var fan := FanIn(s.order, s.tasks);
      if SnapshotOf(fan.results).Some? {
        var perfIn := PerformanceInputOf(req, fan.results);
        if s.performance(perfIn).Returned? && fan.last.Some? && s.summariser(fan.last.value).Returned? {
          var results := fan.results[PerformanceKey := TextEntry(s.performance(perfIn).value)];
          ConcludeIgnoresUpload(req, s, failure, res.memoryId, fan.last.value, s.summariser(fan.last.value).value, results);
        }
      }
  }

  /** The steps after the summary end the same way whether the upload
      reported success or one of the handled failures. */
  lemma ConcludeIgnoresUpload(req: Request, s: Services, failure: UploadOutcome, memoryId: Option<string>,
                              master: TaskValue, summary: Option<string>, results: Results)
    requires failure == FileMissing || failure == NoCredentials || failure == ClientFailure
    ensures Conclude(req, s.(upload := failure), memoryId, master, summary, results).outcome
         == Conclude(req, s.(upload := Uploaded), memoryId, master, summary, results).outcome
  {
    var repIn := ReportInputOf(req, s, memoryId, master, summary, results);
    if StockCurrentPriceKey in results {
      if s.reportGenerator(repIn).Returned? {
        UrlIgnoresUploadResult(req.shareName, req.ticker, s.reportGenerator(repIn).value, s.uuid,
                               s.fileWrite, s.bucket, failure, s.presign);
      }
    }
  }

  // ---------------------------------------------------------------------
  // How a run ends
  // ---------------------------------------------------------------------

  /** The number of events a trace appends to memory. */
  function EventCount(es: seq<Effect>): nat
    decreases |es|
  {
    if es == [] then 0 else (if es[0].CreateEvent? then 1 else 0) + EventCount(es[1..])
  }

  /** Counting events distributes over concatenation. */
  lemma {:induction false} EventCountAppend(a: seq<Effect>, b: seq<Effect>)
    ensures EventCount(a + b) == EventCount(a) + EventCount(b)
    decreases |a|
  {
    if a == [] {
      assert a + b == b;
    } else {
      assert (a + b)[1..] == a[1..] + b;
      EventCountAppend(a[1..], b);
    }
  }

  /** A trace without event calls counts none. */
  lemma {:induction false} NoEvents(es: seq<Effect>)
    requires forall e :: e in es ==> !e.CreateEvent?
    ensures EventCount(es) == 0
    decreases |es|
  {
    if es != [] {
      assert es[0] in es;
      assert forall e :: e in es[1..] ==> e in es;
      NoEvents(es[1..]);
    }
  }

  /** What the report generator is asked, in the steps after the summary. */
  function ReportInputOf(req: Request, s: Services, memoryId: Option<string>, master: TaskValue,
                         summary: Option<string>, results: Results): ReportInput {
    ReportInput(master, summary, RecallMemory(req, s, memoryId).past, TextOf(results, StockCurrentPriceKey))
  }

  /** What publication makes of the report the generator returned. */
  function PublicationOf(req: Request, s: Services, html: Option<string>): Publication {
    PublishReport(req.shareName, req.ticker, html, s.uuid, s.fileWrite, s.bucket, s.upload, s.presign)
  }

  /** Whether a step after the summary raises: the lookup
      `results["stock_current_price"]`, the report generator, or the write,
      upload or presigning of the report. */
  predicate ConcludeRaises(req: Request, s: Services, memoryId: Option<string>, master: TaskValue,
                           summary: Option<string>, results: Results) {
    var gen := s.reportGenerator(ReportInputOf(req, s, memoryId, master, summary, results));
    StockCurrentPriceKey !in results || gen.Raised? || PublicationOf(req, s, gen.value).url.Raised?
  }

  /** The steps after the summary end in `None` exactly when one of them
      raises; otherwise they return the summary with the publication's URL,
      and in every case they append exactly one event. */
  lemma ConcludeEndings(req: Request, s: Services, memoryId: Option<string>, master: TaskValue,
                        summary: Option<string>, results: Results)
    ensures var r := Conclude(req, s, memoryId, master, summary, results);
            && (r.outcome == ReturnedNone <==> ConcludeRaises(req, s, memoryId, master, summary, results))
            && (r.outcome.Completed? <==> !ConcludeRaises(req, s, memoryId, master, summary, results))
            && EventCount(r.effects) == 1
    ensures !ConcludeRaises(req, s, memoryId, master, summary, results) ==>
              var gen := s.reportGenerator(ReportInputOf(req, s, memoryId, master, summary, results));
              Conclude(req, s, memoryId, master, summary, results).outcome
              == Completed(summary, PublicationOf(req, s, gen.value).url.value)
  {
    var m := RecallMemory(req, s, memoryId);
    var rep := GenerateReport(req, s, master, summary, m.past, results);
    NoEvents(rep.effects);
    EventCountAppend(m.effects, rep.effects);
  }

  /** The arguments of the steps after the summary, for a run that gets that
      far. */
  datatype Summarised = Summarised(master: TaskValue, summary: Option<string>, results: Results)

  /** How far the `try` body gets before the steps after the summary: `None`
      when no snapshot reaches the performance step, the performance agent
      raises, `result` is unbound, or the summariser raises. */
  function SummaryOf(req: Request, s: Services): Option<Summarised> {
    var fan := FanIn(s.order, s.tasks);
    if SnapshotOf(fan.results).None? then None
    else
      var perf := s.performance(PerformanceInputOf(req, fan.results));
      if perf.Raised? || fan.last.None? || s.summariser(fan.last.value).Raised? then None
      else Some(Summarised(fan.last.value, s.summariser(fan.last.value).value,
                           fan.results[PerformanceKey := TextEntry(perf.value)]))
  }

  /** Whether the body of `run`'s `try` raises, given the resolved memory id. */
  predicate TryRaises(req: Request, s: Services, memoryId: Option<string>) {
    match SummaryOf(req, s)
    case None => true
    case Some(a) => ConcludeRaises(req, s, memoryId, a.master, a.summary, a.results)
  }

  /** The `try` body ends in `None` exactly when one of its steps raises;
      otherwise it ends as the steps after the summary do. It appends an event
      exactly when it gets past the summariser, and then exactly one. */
  lemma AnalyseEndings(req: Request, s: Services, memoryId: Option<string>)
    ensures Analyse(req, s, memoryId).outcome == ReturnedNone <==> TryRaises(req, s, memoryId)
    ensures SummaryOf(req, s).Some? ==>
              var a := SummaryOf(req, s).value;
              Analyse(req, s, memoryId).outcome == Conclude(req, s, memoryId, a.master, a.summary, a.results).outcome
    ensures EventCount(Analyse(req, s, memoryId).effects) == if SummaryOf(req, s).Some? then 1 else 0
  {
    var r := Analyse(req, s, memoryId);
    var fan := FanIn(s.order, s.tasks);
    if SnapshotOf(fan.results).None? {
      assert r.effects == [];
    } else {
      var perfIn := PerformanceInputOf(req, fan.results);
      var e1 := [InvokePerformance(perfIn)];
      if s.performance(perfIn).Raised? || fan.last.None? {
        NoEvents(e1);
        assert r.effects == e1;
      } else {
        var e2 := e1 + [InvokeSummariser(fan.last.value)];
        NoEvents(e2);
        if s.summariser(fan.last.value).Raised? {
          assert r.effects == e2;
        } else {
          var a := SummaryOf(req, s).value;
          var tail := Conclude(req, s, memoryId, a.master, a.summary, a.results);
          ConcludeEndings(req, s, memoryId, a.master, a.summary, a.results);
          EventCountAppend(e2, tail.effects);
          assert r == RunTrace(tail.outcome, e2 + tail.effects);
        }
      }
    }
  }

  /** Whether `run` returns `None`: the memory listing returned (so the `try`
      is entered) and then some step inside the `try` raised. */
  predicate RunRaises(req: Request, s: Services) {
    match ResolveMemory(s.listed, s.created)
    case Raised => false
    case Returned(res) => TryRaises(req, s, res.memoryId)
  }

  /** Any exception inside `run`'s `try` makes it return `None`, and only an
      exception does: a run that returns `None` is a failed run, never a run
      that finished without a report. An escaped listing failure is told
      apart, and a run appends exactly one event once past the summariser,
      none otherwise. */
  lemma RunEndings(req: Request, s: Services)
    ensures Run(req, s).outcome == ReturnedNone <==> RunRaises(req, s)
    ensures Run(req, s).outcome.Completed? <==> ListMemoryInstances(s.listed).Returned? && !RunRaises(req, s)
    ensures ListMemoryInstances(s.listed).Returned? && SummaryOf(req, s).Some? ==>
              var a := SummaryOf(req, s).value;
              var id := ResolveMemory(s.listed, s.created).value.memoryId;
              Run(req, s).outcome == Conclude(req, s, id, a.master, a.summary, a.results).outcome
    ensures EventCount(Run(req, s).effects)
            == if ListMemoryInstances(s.listed).Returned? && SummaryOf(req, s).Some? then 1 else 0
  {
    match ResolveMemory(s.listed, s.created)
    case Raised =>
      assert Run(req, s).effects == [ListMemories];
      NoEvents([ListMemories]);
    case Returned(res) =>
      var tail := Analyse(req, s, res.memoryId);
      AnalyseEndings(req, s, res.memoryId);
      NoEvents(res.effects);
      EventCountAppend(res.effects, tail.effects);
      assert Run(req, s) == RunTrace(tail.outcome, res.effects + tail.effects);
  }

  // ---------------------------------------------------------------------
  // The runtime entry point
  // ---------------------------------------------------------------------

  /** What `json.loads` makes of a string payload: it fails, or gives
      something other than an object, or an object whose fields of interest
      are strings or `null`. */
  datatype Decoded = Malformed | NotAnObject | Object(fields: map<string, Option<string>>)

  /** The payload the runtime hands the entry point: already a mapping, or a
      JSON string. */
  datatype Payload = Mapping(fields: map<string, Option<string>>) | Serialized(decoded: Decoded)

  /** What `strands_agent_bedrock` returns: `{}`, `None` (passed through from
      `run`), or the summary/report dictionary. */
  datatype EntryResult = EmptyObject | NoneValue | Report(summary: Option<string>, report: Option<string>)

  /** The mapping `payload.get` reads from, when there is one. */
  function PayloadFields(p: Payload): Option<map<string, Option<string>>> {
    match p
    case Mapping(fields) => Some(fields)
    case Serialized(Object(fields)) => Some(fields)
    case Serialized(_) => None
  }

  /** `payload.get(key)`: `None` for a missing key. */
  function FieldOf(fields: map<string, Option<string>>, key: string): Option<string> {
    if key in fields then fields[key] else None
  }

  /** The run's arguments, read from the payload keys. */
  function RequestOf(fields: map<string, Option<string>>): (req: Request)
    ensures "stock_name" !in fields ==> req.shareName.None?
    ensures "ticker_symbol" !in fields ==> req.ticker.None?
    ensures "actor_id" !in fields ==> req.actor.None?
    ensures "stock_name" in fields ==> req.shareName == fields["stock_name"]
    ensures "ticker_symbol" in fields ==> req.ticker == fields["ticker_symbol"]
    ensures "actor_id" in fields ==> req.actor == fields["actor_id"]
  {
    Request(FieldOf(fields, "stock_name"), FieldOf(fields, "ticker_symbol"), FieldOf(fields, "actor_id"))
  }

  /** `strands_agent_bedrock(payload)`: `{}` exactly when its own decoding
      fails or an exception escapes `run`; otherwise whatever `run` returned. */
  function EntryPoint(p: Payload, s: Services): (r: EntryResult)
    ensures r == EmptyObject <==> PayloadFields(p).None? || ListMemoryInstances(s.listed).Raised?
    ensures r.Report? ==>
              PayloadFields(p).Some?
              && Run(RequestOf(PayloadFields(p).value), s).outcome == Completed(r.summary, r.report)
    ensures r == NoneValue ==>
              PayloadFields(p).Some? && Run(RequestOf(PayloadFields(p).value), s).outcome == ReturnedNone
  {
    match PayloadFields(p)
    case None => EmptyObject
    case Some(fields) =>
      match Run(RequestOf(fields), s).outcome
      case Escaped => EmptyObject
      case ReturnedNone => NoneValue
      case Completed(summary, report) => Report(summary, report)
  }
}
