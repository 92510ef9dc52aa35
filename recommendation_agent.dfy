/**
 * api/recommendation-agent.js: `processRecommendationTask`, which validates
 * the body, creates a task, ranks the items against the query, records the
 * outcome, and the statistics of `getAgentStatus`.
 */
module RecommendationAgent {
  import opened Wrappers
  import opened Json
  import opened Domain
  import opened Lists
  import opened Strings
  import opened Database
  import opened Storage
  import opened Tasks
  import opened Inference
  import AgentStatus

  /** The body: `agent_id` ("" when missing or empty) and `input_data` when supplied. */
  datatype RecommendationRequest = RecommendationRequest(agentId: string, inputData: Option<Value>)

  /** The `data` of a successful reply. */
  datatype RecommendationData = RecommendationData(taskId: nat, result: RecommendationResult, processingTimeMs: nat)

  const Generation: Activity := Activity("recommendation_generation", "Recommendation generation")

  const MissingFields: string := "agent_id and input_data are required"
  const MissingQueryOrItems: string := "query and items are required in input_data"
  const ProcessingFailed: string := "Failed to process recommendation generation"

  /** A property that is present and truthy. */
  predicate Given(v: Option<Value>)
  {
    v.Some? && Truthy(v.value)
  }

  function Input(req: RecommendationRequest): Value
  {
    if req.inputData.Some? then req.inputData.value else Null
  }

  /** `input_data.key`, with `undefined` read as `null`. */
  function Property(input: Value, key: string): Value
  {
    var v := Field(input, key);
    if v.Some? then v.value else Null
  }

  /** The two checks of the handler, in order. */
  function Validate(req: RecommendationRequest): Outcome
  {
    if req.agentId == "" || !Given(req.inputData) then Fail(MissingFields)
    else if !Given(Field(Input(req), "query")) || !Given(Field(Input(req), "items")) then Fail(MissingQueryOrItems)
    else Pass
  }

  /** `threshold = 0.7` in the destructuring: the default replaces only an absent property. */
  function ThresholdOf(input: Value): Value
  {
    var t := Field(input, "threshold");
    if t.Some? then t.value else Num(DefaultThreshold)
  }

  /**
   * `v.length` where it is defined: strings (in UTF-16 code units) and arrays,
   * and objects with a `length` property.
   */
  function LengthOf(v: Value): Option<Value>
  {
    match v
    case Str(s) => Some(Number(Utf16Length(s)))
    case Arr(a) => Some(Number(|a|))
    case Obj(_) => Field(v, "length")
    case _ => None
  }

  /** `m` with `key` set when the value is defined (`JSON.stringify` drops `undefined`). */
  function WithDefined(m: map<string, Value>, key: string, v: Option<Value>): map<string, Value>
  {
    if v.Some? then m[key := v.value] else m
  }

  /** `findSimilarItems` followed by `enhanceRecommendations`, with the embedder `e` at time `now`. */
  function Analysis(input: Value, e: Embedder, now: int): Result<RecommendationResult>
  {
    var similar := FindSimilarItems(Property(input, "query"), Property(input, "items"), ThresholdOf(input), e, now);
    if similar.Err? then Err(similar.message)
    else Ok(RecommendationResult(similar.value, Enhance(similar.value.recommendations, now)))
  }

  function TaskRow(id: nat, tenantId: string, req: RecommendationRequest, now: int): Task
  {
    NewTaskRow(id, tenantId, req.agentId, Input(req), map["started_at" := Number(now)], now)
  }

  /** The writes of the success path: task completed, success metric, info log. */
  function SuccessSteps(task: Task, result: RecommendationResult, elapsed: nat, now: int): (steps: seq<Step>)
    ensures NoCrash(steps) && |steps| == 3
  {
    var n := Number(|result.similar.recommendations|);
    var input := task.input;
    var metricMeta := WithDefined(
      WithDefined(map["threshold" := ThresholdOf(input)], "query_length", LengthOf(Property(input, "query"))),
      "items_count", LengthOf(Property(input, "items")));
    [ Completion(task, RecommendationOutput(result), map["recommendations_count" := n], elapsed, now),
      SuccessMetric(task, Generation, |result.similar.recommendations| as real, metricMeta, elapsed, now),
      CompletedLog(task, Generation, map["recommendations_count" := n], elapsed, now) ]
  }

  function WorkOf(task: Task, result: Result<RecommendationResult>, elapsed: nat, now: int): Result<seq<Step>>
  {
    if result.Ok? then Ok(SuccessSteps(task, result.value, elapsed, now)) else Err(result.message)
  }

  function Work(task: Task, e: Embedder, elapsed: nat, now: int): Db -> Result<seq<Step>>
  {
    (db: Db) => WorkOf(task, Analysis(task.input, e, now), elapsed, now)
  }

  /**
   * What `processRecommendationTask` does for a request of tenant
   * `tenantId` at time `now`, the work taking `elapsed` ms, with the
   * embedder `e` and under the write faults `f`.
   */
  function RecommendationPlan(db: Db, tenantId: string, req: RecommendationRequest, e: Embedder, now: int, elapsed: nat, f: Fault)
    : Handled<RecommendationData>
  {
    var check := Validate(req);
    if check.Fail? then Handled(Run([], None, 0), Failure(400, check.message, None))
    else
      var task := TaskRow(db.nextTask, tenantId, req, now);
      var run := Lifecycle(db, NewTask(task), Work(task, e, elapsed, now), Recover(task, Generation, elapsed, now), f);
      var result := Analysis(task.input, e, now);
      Handled(run, if run.error.None? && result.Ok? then Success(200, RecommendationData(task.id, result.value, elapsed))
                   else Failure(500, ProcessingFailed, run.error))
  }

  /** `processRecommendationTask`: validation, task creation, ranking, and the writes of the try or catch block. */
  method ProcessRecommendationTask(store: Store, tenantId: string, req: RecommendationRequest, e: Embedder, now: int, elapsed: nat, f: Fault)
    returns (reply: Reply<RecommendationData>)
    modifies store
    ensures var h := RecommendationPlan(old(store.State()), tenantId, req, e, now, elapsed, f);
      reply == h.reply && store.State() == ApplyAll(old(store.State()), h.run.done)
  {
    var check := Validate(req);
    if check.Fail? {
      return Failure(400, check.message, None);
    }
    ghost var db := store.State();
    var task := TaskRow(store.nextTask, tenantId, req, now);
    var error := store.CreateTask(task, FaultAt(f, 0));
    if error.Some? {
      return Failure(500, ProcessingFailed, error);
    }
    assert [NewTask(task)][..0] == [];
    var result := Analysis(task.input, e, now);
    var run := store.Settle(WorkOf(task, result, elapsed, now), Recover(task, Generation, elapsed, now), f);
    ApplyAllConcat(db, [NewTask(task)], run.done);
    if run.error.None? && result.Ok? {
      reply := Success(200, RecommendationData(task.id, result.value, elapsed));
    } else {
      reply := Failure(500, ProcessingFailed, run.error);
    }
  }

  /**
   * A request without `agent_id` or `input_data`, or whose `input_data`
   * lacks `query` or `items`, is answered 400 with the matching message and
   * creates no task; any other request creates one, as processing.
   */
  lemma RecommendationValidation(db: Db, tenantId: string, req: RecommendationRequest, e: Embedder, now: int, elapsed: nat, f: Fault)
    ensures var h := RecommendationPlan(db, tenantId, req, e, now, elapsed, f);
      var input := Input(req);
      && (req.agentId == "" || !Given(req.inputData) ==> h.reply == Failure(400, MissingFields, None) && h.run.done == [])
      && (req.agentId != "" && Given(req.inputData) && (!Given(Field(input, "query")) || !Given(Field(input, "items")))
          ==> h.reply == Failure(400, MissingQueryOrItems, None) && h.run.done == [])
      && (req.agentId != "" && Given(req.inputData) && Given(Field(input, "query")) && Given(Field(input, "items")) && FaultAt(f, 0).None?
          ==> h.run.done != [] && h.run.done[0] == NewTask(TaskRow(db.nextTask, tenantId, req, now))
              && h.run.done[0].task.status == Processing)
  {
  }

  /**
   * Without a `threshold` the items are ranked against 0.7, which the result
   * reports: every recommendation has similarity at least 0.7, so a
   * confidence of medium or high and a category of strong or exact match.
   */
  lemma DefaultThresholdApplies(input: Value, e: Embedder, now: int)
    requires Field(input, "threshold").None?
    requires Analysis(input, e, now).Ok?
    ensures var r := Analysis(input, e, now).value;
      && r.similar.threshold == Num(0.7)
      && (forall i :: 0 <= i < |r.similar.recommendations| ==> r.similar.recommendations[i].similarity >= 0.7)
      && (forall i :: 0 <= i < |r.enhanced.recommendations| ==>
            r.enhanced.recommendations[i].confidence in {HighConfidence, MediumConfidence}
            && r.enhanced.recommendations[i].category in {ExactMatch, StrongMatch})
  {
    var scored := Score(Property(input, "items").items, e).value;
    var recs := Rank(scored, Finite(DefaultThreshold));
    assert ThresholdOf(input) == Num(DefaultThreshold);
    assert Analysis(input, e, now).value.similar.recommendations == recs;
    assert Analysis(input, e, now).value.enhanced == Enhance(recs, now);
    RankAbove(scored, Finite(DefaultThreshold));
    DefaultThresholdTiers(scored, now);
  }

  /**
   * Without faults, a ranking that succeeds writes, in order: the task
   * created as processing, the task completed with its `recommendations_count`,
   * then the metric and the log of `RecommendationRecords`; the reply is 200
   * with the result.
   */
  lemma RecommendationSucceeds(db: Db, tenantId: string, req: RecommendationRequest, e: Embedder, now: int, elapsed: nat)
    requires Validate(req).Pass?
    requires Analysis(Input(req), e, now).Ok?
    ensures var h := RecommendationPlan(db, tenantId, req, e, now, elapsed, NoFault);
      var result := Analysis(Input(req), e, now).value;
      var n := |result.similar.recommendations|;
      var ws := h.run.done;
      && h.reply == Success(200, RecommendationData(db.nextTask, result, elapsed))
      && |ws| == 4
      && ws[0].NewTask? && ws[0].task.status == Processing && ws[0].task.id == db.nextTask
      && ws[1].TaskUpdate? && ws[1].id == db.nextTask && ws[1].patch.MarkCompleted?
      && ws[1].patch.output == RecommendationOutput(result)
      && "recommendations_count" in ws[1].patch.meta && ws[1].patch.meta["recommendations_count"] == Num(n as real)
      && "started_at" in ws[1].patch.meta && ws[1].patch.meta["started_at"] == Num(now as real)
  {
    var task := TaskRow(db.nextTask, tenantId, req, now);
    var result := Analysis(Input(req), e, now).value;
    var steps := SuccessSteps(task, result, elapsed, now);
    SuccessPlan(db, tenantId, req, e, now, elapsed);
    SuccessWrites(task, result, elapsed, now);
    assert RecommendationPlan(db, tenantId, req, e, now, elapsed, NoFault).run.done[1] == Writes(steps)[0];
  }

  /**
   * The success path's last two writes: a successful metric whose value is
   * the number of recommendations, and an info log carrying the same count.
   */
  lemma RecommendationRecords(db: Db, tenantId: string, req: RecommendationRequest, e: Embedder, now: int, elapsed: nat)
    requires Validate(req).Pass?
    requires Analysis(Input(req), e, now).Ok?
    ensures var ws := RecommendationPlan(db, tenantId, req, e, now, elapsed, NoFault).run.done;
      var n := |Analysis(Input(req), e, now).value.similar.recommendations|;
      && |ws| == 4
      && ws[2].NewMetric? && ws[2].metric.success && ws[2].metric.value == n as real
      && ws[2].metric.name == "recommendation_generation"
      && ws[3].NewLog? && ws[3].entry.level == Info
      && "recommendations_count" in ws[3].entry.meta && ws[3].entry.meta["recommendations_count"] == Num(n as real)
  {
    var task := TaskRow(db.nextTask, tenantId, req, now);
    var result := Analysis(Input(req), e, now).value;
    var steps := SuccessSteps(task, result, elapsed, now);
    SuccessPlan(db, tenantId, req, e, now, elapsed);
    SuccessWrites(task, result, elapsed, now);
    var ws := RecommendationPlan(db, tenantId, req, e, now, elapsed, NoFault).run.done;
    assert ws[2] == Writes(steps)[1] && ws[3] == Writes(steps)[2];
  }

  /** Without faults, a ranking that succeeds runs the task creation and the success path. */
  lemma SuccessPlan(db: Db, tenantId: string, req: RecommendationRequest, e: Embedder, now: int, elapsed: nat)
    requires Validate(req).Pass?
    requires Analysis(Input(req), e, now).Ok?
    ensures var h := RecommendationPlan(db, tenantId, req, e, now, elapsed, NoFault);
      var task := TaskRow(db.nextTask, tenantId, req, now);
      var result := Analysis(Input(req), e, now).value;
      && h.run.done == [NewTask(task)] + Writes(SuccessSteps(task, result, elapsed, now))
      && h.reply == Success(200, RecommendationData(db.nextTask, result, elapsed))
  {
    var task := TaskRow(db.nextTask, tenantId, req, now);
    LifecycleSucceeds(db, NewTask(task), Work(task, e, elapsed, now), Recover(task, Generation, elapsed, now));
  }

  /** The three writes of the success path, as `RecommendationSucceeds` reads them. */
  lemma SuccessWrites(task: Task, result: RecommendationResult, elapsed: nat, now: int)
    ensures var ws := Writes(SuccessSteps(task, result, elapsed, now));
      var n := Number(|result.similar.recommendations|);
      && |ws| == 3
      && ws[0] == TaskUpdate(task.id, MarkCompleted(RecommendationOutput(result), now,
                                                    task.meta + map["processing_time_ms" := Number(elapsed)] + map["recommendations_count" := n]))
      && ws[1].NewMetric? && ws[1].metric.success && ws[1].metric.value == |result.similar.recommendations| as real
      && ws[1].metric.name == "recommendation_generation"
      && ws[2].NewLog? && ws[2].entry.level == Info
      && "recommendations_count" in ws[2].entry.meta && ws[2].entry.meta["recommendations_count"] == n
  {
  }

  /**
   * Without faults, a ranking that fails writes the task, marks it failed
   * with the error, writes a 0-valued unsuccessful metric and an error log,
   * and answers 500 with the error.
   */
  lemma RecommendationFails(db: Db, tenantId: string, req: RecommendationRequest, e: Embedder, now: int, elapsed: nat)
    requires Validate(req).Pass?
    requires Analysis(Input(req), e, now).Err?
    ensures var h := RecommendationPlan(db, tenantId, req, e, now, elapsed, NoFault);
      var m := Analysis(Input(req), e, now).message;
      && h.reply == Failure(500, ProcessingFailed, Some(m))
      && |h.run.done| == 4
      && h.run.done[0].NewTask?
      && FailureWrites(h.run.done[1..], db.nextTask, m, now)
  {
    var task := TaskRow(db.nextTask, tenantId, req, now);
    LifecycleWorkFails(db, NewTask(task), Work(task, e, elapsed, now), Recover(task, Generation, elapsed, now));
  }

  /**
   * A store write of the success path that fails (attempt `k`) is caught
   * like a failed ranking: the writes before it stay, the failure writes
   * follow, and the reply is 500 with that write's error.
   */
  lemma RecommendationLateFault(db: Db, tenantId: string, req: RecommendationRequest, e: Embedder, now: int, elapsed: nat, k: nat, m: string)
    requires Validate(req).Pass?
    requires Analysis(Input(req), e, now).Ok?
    requires 1 <= k <= 3
    ensures var h := RecommendationPlan(db, tenantId, req, e, now, elapsed, FailAt(k, m));
      var task := TaskRow(db.nextTask, tenantId, req, now);
      var result := Analysis(Input(req), e, now).value;
      && h.reply == Failure(500, ProcessingFailed, Some(m))
      && h.run.done == [NewTask(task)] + Writes(SuccessSteps(task, result, elapsed, now)[..k - 1])
                       + Writes(FailureSteps(task, Generation, elapsed, now, m))
  {
    var task := TaskRow(db.nextTask, tenantId, req, now);
    LifecycleLateFault(db, NewTask(task), Work(task, e, elapsed, now), Recover(task, Generation, elapsed, now), k, m);
  }

  /** The recommendation agent's `statistics`: the common ones and the sum of the metrics' values. */
  datatype RecommendationStatistics = RecommendationStatistics(common: AgentStatus.Statistics, totalRecommendations: real)

  function MetricValue(m: Metric): real
  {
    m.value
  }

  function StatisticsOf(tasks: seq<Task>, metrics: seq<Metric>): RecommendationStatistics
  {
    RecommendationStatistics(AgentStatus.StatisticsOf(tasks, metrics), Sum(metrics, MetricValue))
  }

  /** `getAgentStatus` at time `now`. */
  function AgentStatusOf(db: Db, agentId: string, now: int): Reply<AgentStatus.StatusData<RecommendationStatistics>>
  {
    AgentStatus.Status(db, agentId, now, StatisticsOf)
  }

  /**
   * A missing `agentId` is answered 400; otherwise the success rate is 0
   * without tasks and a fraction otherwise, completed and failed tasks are
   * at most all tasks, `total_recommendations` is the sum of the 24-hour
   * metrics' values (one more count per successful generation), and at most
   * ten metrics and five tasks are listed.
   */
  lemma RecommendationStatus(db: Db, agentId: string, now: int)
    ensures agentId == "" <==> AgentStatusOf(db, agentId, now).Failure?
    ensures agentId == "" ==> AgentStatusOf(db, agentId, now).status == 400
    ensures agentId != "" ==>
      var d := AgentStatusOf(db, agentId, now).data;
      var s := d.statistics.common;
      && (s.totalTasks == 0 ==> s.successRate == 0.0)
      && 0.0 <= s.successRate <= 1.0
      && s.completedTasks + s.failedTasks <= s.totalTasks
      && d.statistics.totalRecommendations == Sum(AgentStatus.RecentMetrics(db, agentId, now), MetricValue)
      && |d.recentMetrics| <= 10 && |d.recentTasks| <= 5
  {
    AgentStatus.StatusSpec(db, agentId, now, StatisticsOf);
    if agentId != "" {
      AgentStatus.StatisticsBounds(GetTasks(db, agentId, ""), AgentStatus.RecentMetrics(db, agentId, now));
    }
  }
}
