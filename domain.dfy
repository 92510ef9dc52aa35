/**
 * The records the handlers read and write: rows of the `agents`,
 * `agent_tasks`, `agent_metrics` and `agent_logs` tables, and the results the
 * handlers compute and store in a task's `output_data`. Timestamps are
 * milliseconds since the epoch; ids of tasks are numbers handed out by the
 * store, ids of agents are strings.
 */
module Domain {
  import opened Wrappers
  import opened Json

  datatype TaskStatus = Pending | Processing | Completed | Failed | Cancelled

  /** Log levels. The handlers write `info`, `error` and `warning`; `warn` is the constant of the shared types. */
  datatype LogLevel = Debug | Info | Warning | Warn | Error | Fatal

  /** A row of `agent_tasks`; `meta` is the JSON `metadata` column. */
  datatype Task = Task(
    id: nat,
    tenantId: string,
    agentId: string,
    status: TaskStatus,
    input: Value,
    output: Option<Output>,
    errorMessage: Option<string>,
    meta: map<string, Value>,
    createdAt: int,
    completedAt: Option<int>)

  /** A row of `agent_metrics`. */
  datatype Metric = Metric(
    tenantId: string,
    agentId: string,
    name: string,
    value: real,
    processingTime: int,
    success: bool,
    meta: map<string, Value>,
    createdAt: int)

  /**
   * The text of a log row: plain text, or `"ALERT: "` followed by an alert's
   * message (whose numbers the source formats with `toFixed`).
   */
  datatype LogText = Text(text: string) | AlertText(alert: AlertMessage)

  /** A row of `agent_logs`. */
  datatype LogEntry = LogEntry(
    tenantId: string,
    agentId: string,
    level: LogLevel,
    message: LogText,
    meta: map<string, Value>,
    createdAt: int)

  /** A row of `agents`; `kind` is the `type` column. */
  datatype Agent = Agent(
    id: string,
    tenantId: string,
    name: string,
    kind: string,
    description: string,
    status: string,
    version: string,
    endpointUrl: string,
    config: map<string, Value>,
    createdBy: string,
    createdAt: int)

  /** The snapshot `performance_metrics` of one agent. */
  datatype Performance = Performance(
    totalTasks: nat,
    completedTasks: nat,
    failedTasks: nat,
    pendingTasks: nat,
    processingTasks: nat,
    successRate: real,
    averageProcessingTime: real,
    errorRate: real,
    tasksLast24h: nat,
    tasksLast7d: nat,
    errorLogs: nat,
    warningLogs: nat,
    infoLogs: nat)

  datatype HealthStatus = Healthy | Warned | Critical

  datatype AlertKind = ErrorRateAlert | ProcessingTimeAlert | InactivityAlert

  datatype Severity = High | Medium | Low

  /** An alert's message: the error rate in percent, the average time in ms, or the fixed inactivity text. */
  datatype AlertMessage = HighErrorRate(percent: real) | SlowProcessing(ms: real) | NoRecentTasks

  datatype Alert = Alert(kind: AlertKind, severity: Severity, message: AlertMessage, threshold: real, currentValue: real)

  datatype AgentInfo = AgentInfo(id: string, name: string, kind: string, status: string, version: string)

  /** What `performComprehensiveMonitoring` returns. */
  datatype MonitoringResult = MonitoringResult(
    agentInfo: AgentInfo,
    performance: Performance,
    score: int,
    status: HealthStatus,
    alerts: seq<Alert>,
    recommendations: seq<string>,
    timestamp: int)

  /** An item of a recommendation request with the similarity computed for it. */
  datatype Candidate = Candidate(item: Value, similarity: real)

  /** A threshold after JavaScript's conversion to a number: a value, or `NaN`, which no comparison satisfies. */
  datatype Threshold = Finite(value: real) | NotANumber

  /** What `findSimilarItems` returns; `threshold` is the value as supplied. */
  datatype Similar = Similar(query: Value, recommendations: seq<Candidate>, total: nat, threshold: Value, timestamp: int)

  datatype Confidence = HighConfidence | MediumConfidence | LowConfidence

  datatype Category = ExactMatch | StrongMatch | ModerateMatch | WeakMatch

  datatype Enhanced = Enhanced(candidate: Candidate, confidence: Confidence, category: Category, rank: nat)

  /** What `enhanceRecommendations` returns. */
  datatype EnhancedSet = EnhancedSet(recommendations: seq<Enhanced>, total: nat, high: nat, medium: nat, low: nat, timestamp: int)

  /** `{...similarItems, enhanced}`, the output of a recommendation task. */
  datatype RecommendationResult = RecommendationResult(similar: Similar, enhanced: EnhancedSet)

  /** One answer of the sentiment model. */
  datatype Sentiment = Sentiment(text: Value, sentiment: string, confidence: real, timestamp: int)

  datatype Summary = Summary(total: nat, positive: nat, negative: nat, neutral: nat)

  /** The output of a sentiment task: `analyzeSentiment`'s object, or `analyzeBatch`'s. */
  datatype SentimentResult = Single(answer: Sentiment) | Batch(results: seq<Sentiment>, summary: Summary, timestamp: int)

  /** The `output_data` of a completed task. */
  datatype Output =
    | MonitoringOutput(monitoring: MonitoringResult)
    | RecommendationOutput(recommendation: RecommendationResult)
    | SentimentOutput(analysis: SentimentResult)

  /**
   * An HTTP answer: `Success` is a 2xx JSON body carrying `data`, `Failure`
   * an error body with its `error` text and, for caught exceptions, the
   * exception's message as `details`.
   */
  datatype Reply<+T> = Success(status: nat, data: T) | Failure(status: nat, error: string, details: Option<string>)
}
