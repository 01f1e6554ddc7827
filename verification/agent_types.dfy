/** The data that flows through one analysis run of the financial agent
    (agent_deployment/agent.py): task names and values, the inputs handed to the
    language-model agents, and the trace of calls made to foreign services. */
module AgentTypes {
  import opened Wrappers

  /** The price-and-metrics dictionary built by `current_price_bedrock_agent`.
      Its contents come from the market-data provider and are opaque here. */
  datatype Snapshot = Snapshot(repr: string)

  /** The three fan-out tasks submitted to the worker pool. */
  datatype TaskName = StockInfoTask | BusinessModelTask | NewsTask

  /** The raw value a fan-out future returns: the price task returns a pair
      (snapshot, formatted price), the two agent tasks return an optional text. */
  datatype TaskValue =
    | PricePair(info: Option<Snapshot>, price: Option<string>)
    | AgentText(text: Option<string>)

  /** A value stored in the `results` dictionary of `MasterAgent.run`. */
  datatype Entry = InfoEntry(info: Option<Snapshot>) | TextEntry(text: Option<string>)

  /** What the performance agent's prompt is built from. The snapshot is the
      one found under "stock_information"; the other two are `results.get(...)`,
      `None` when the key is absent. */
  datatype PerformanceInput = PerformanceInput(
    ticker: Option<string>,
    news: Option<string>,
    snapshot: Snapshot,
    businessModel: Option<string>)

  /** What the report generator receives: the master result it is handed
      (the run passes the last completed future's raw value), the summary,
      the past interactions and the current price. */
  datatype ReportInput = ReportInput(
    masterResult: TaskValue,
    summary: Option<string>,
    pastInteractions: Option<seq<string>>,
    currentPrice: Option<string>)

  /** One entry of `memory_client.list_memories()`, as read through `.get`. */
  datatype MemoryRecord = MemoryRecord(id: Option<string>, memoryId: Option<string>)

  /** One message of a retrieved turn: `message['content']['text']`,
      `None` when that lookup fails. */
  datatype Message = Message(content: Option<string>)

  /** What `s3_client.upload_file` does: succeed, or raise one of the three
      exceptions `upload_to_s3` catches, or raise anything else. */
  datatype UploadOutcome = Uploaded | FileMissing | NoCredentials | ClientFailure | OtherFailure

  /** A call the run makes into a foreign service or a language-model agent,
      with the arguments that matter. */
  datatype Effect =
    | ListMemories
    | CreateMemory(name: string, strategies: seq<string>, expiryDays: nat)
    | GetLastKTurns(memoryId: Option<string>, actorId: string, session: string, k: nat, maxResults: nat)
    | CreateEvent(memoryId: Option<string>, actor: Option<string>, session: string, text: string, role: string)
    | InvokePerformance(perf: PerformanceInput)
    | InvokeSummariser(master: TaskValue)
    | InvokeReportGenerator(report: ReportInput)
    | UploadFile(localPath: string, bucket: Option<string>, key: string)
    | PresignGet(bucket: Option<string>, key: string, expiresIn: nat)
}
