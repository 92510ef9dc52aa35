/**
 * api/sentiment-agent.js: `processSentimentTask`, which validates the body,
 * creates a task, dispatches to batch or single analysis, records the
 * outcome, and the statistics of `getAgentStatus`.
 */
module SentimentAgent {
  import opened Wrappers
  import opened Json
  import opened Domain
  import opened Database
  import opened Storage
  import opened Tasks
  import opened Inference
  import AgentStatus

  /** The body: `agent_id` ("" when missing or empty), `input_data` and `batch_mode` when supplied. */
  datatype SentimentRequest = SentimentRequest(agentId: string, inputData: Option<Value>, batchMode: Option<Value>)

  /** The `data` of a successful reply. */
  datatype SentimentData = SentimentData(taskId: nat, result: SentimentResult, processingTimeMs: nat)

  const Analysis: Activity := Activity("sentiment_analysis", "Sentiment analysis")

  const MissingFields: string := "agent_id and input_data are required"
  const InvalidFormat: string := "Invalid input data format"
  const ProcessingFailed: string := "Failed to process sentiment analysis"

  /** The `TypeError` of reading `.length` of the `results` a single answer does not have. */
  const LengthOfUndefined: string := "Cannot read properties of undefined (reading 'length')"

  /** `batch_mode = false`: the default replaces only an absent property. */
  function BatchMode(req: SentimentRequest): Value
  {
    if req.batchMode.Some? then req.batchMode.value else Bool(false)
  }

  function Input(req: SentimentRequest): Value
  {
    if req.inputData.Some? then req.inputData.value else Null
  }

  predicate Rejected(req: SentimentRequest)
  {
    req.agentId == "" || req.inputData.None? || !Truthy(req.inputData.value)
  }

  /** Which analysis the handler runs. */
  datatype Mode = Batched(texts: seq<Value>) | SingleText(text: Value) | NoText

  /** `batch_mode && Array.isArray(input_data.texts)`, else a truthy `input_data.text`, else neither. */
  function ModeOf(input: Value, batchMode: Value): Mode
  {
    var texts := Field(input, "texts");
    var text := Field(input, "text");
    if Truthy(batchMode) && texts.Some? && texts.value.Arr? then Batched(texts.value.items)
    else if text.Some? && Truthy(text.value) then SingleText(text.value)
    else NoText
  }

  /** The analysis of the chosen mode, with the classifier `classify` at time `now`. */
  function Analyze(mode: Mode, classify: Value -> Result<Label>, now: int): (r: Result<SentimentResult>)
    ensures mode.NoText? ==> r == Err(InvalidFormat)
    ensures mode.Batched? ==> r == AnalyzeBatch(mode.texts, classify, now)
    ensures mode.SingleText? && r.Ok? ==> r.value.Single? && r.value.answer.text == mode.text
  {
    match mode
    case Batched(texts) => AnalyzeBatch(texts, classify, now)
    case SingleText(text) =>
      var a := AnalyzeSentiment(text, classify, now);
      if a.Err? then Err(a.message) else Ok(Single(a.value))
    case NoText => Err(InvalidFormat)
  }

  function TaskRow(id: nat, tenantId: string, req: SentimentRequest, now: int): Task
  {
    NewTaskRow(id, tenantId, req.agentId, Input(req), map["batch_mode" := BatchMode(req), "started_at" := Number(now)], now)
  }

  /**
   * `batch_mode ? result.results.length : 1`: the number of results, or an
   * exception when the result of a truthy `batch_mode` is a single answer.
   */
  function MetricValue(batchMode: Value, result: SentimentResult): Result<real>
  {
    if !Truthy(batchMode) then Ok(1.0)
    else if result.Batch? then Ok(|result.results| as real)
    else Err(LengthOfUndefined)
  }

  /** The steps of the success path: task completed, success metric (or the exception), info log. */
  function SuccessSteps(task: Task, batchMode: Value, result: SentimentResult, elapsed: nat, now: int): seq<Step>
  {
    var value := MetricValue(batchMode, result);
    [ Completion(task, SentimentOutput(result), map[], elapsed, now) ]
    + (if value.Err? then [Crash(value.message)]
       else [SuccessMetric(task, Analysis, value.value, map["batch_mode" := batchMode], elapsed, now)])
    + [ CompletedLog(task, Analysis, map[], elapsed, now) ]
  }

  function WorkOf(task: Task, batchMode: Value, result: Result<SentimentResult>, elapsed: nat, now: int): Result<seq<Step>>
  {
    if result.Ok? then Ok(SuccessSteps(task, batchMode, result.value, elapsed, now)) else Err(result.message)
  }

  function Work(task: Task, batchMode: Value, classify: Value -> Result<Label>, elapsed: nat, now: int): Db -> Result<seq<Step>>
  {
    (db: Db) => WorkOf(task, batchMode, Analyze(ModeOf(task.input, batchMode), classify, now), elapsed, now)
  }

  /**
   * What `processSentimentTask` does for a request of tenant `tenantId` at
   * time `now`, the work taking `elapsed` ms, with the classifier `classify`
   * and under the write faults `f`.
   */
  function SentimentPlan(db: Db, tenantId: string, req: SentimentRequest, classify: Value -> Result<Label>, now: int, elapsed: nat, f: Fault)
    : Handled<SentimentData>
  {
    if Rejected(req) then Handled(Run([], None, 0), Failure(400, MissingFields, None))
    else
      var task := TaskRow(db.nextTask, tenantId, req, now);
      var run := Lifecycle(db, NewTask(task), Work(task, BatchMode(req), classify, elapsed, now),
                           Recover(task, Analysis, elapsed, now), f);
      var result := Analyze(ModeOf(task.input, BatchMode(req)), classify, now);
      Handled(run, if run.error.None? && result.Ok? then Success(200, SentimentData(task.id, result.value, elapsed))
                   else Failure(500, ProcessingFailed, run.error))
  }

  /** `processSentimentTask`: validation, task creation, dispatch, and the writes of the try or catch block. */
  method ProcessSentimentTask(store: Store, tenantId: string, req: SentimentRequest, classify: Value -> Result<Label>, now: int, elapsed: nat, f: Fault)
    returns (reply: Reply<SentimentData>)
    modifies store
    ensures var h := SentimentPlan(old(store.State()), tenantId, req, classify, now, elapsed, f);
      reply == h.reply && store.State() == ApplyAll(old(store.State()), h.run.done)
  {
    if Rejected(req) {
      return Failure(400, MissingFields, None);
    }
    ghost var db := store.State();
    var batchMode := BatchMode(req);
    var task := TaskRow(store.nextTask, tenantId, req, now);
    var error := store.CreateTask(task, FaultAt(f, 0));
    if error.Some? {
      return Failure(500, ProcessingFailed, error);
    }
    assert [NewTask(task)][..0] == [];
    var result := Analyze(ModeOf(task.input, batchMode), classify, now);
    var run := store.Settle(WorkOf(task, batchMode, result, elapsed, now), Recover(task, Analysis, elapsed, now), f);
    ApplyAllConcat(db, [NewTask(task)], run.done);
    if run.error.None? && result.Ok? {
      reply := Success(200, SentimentData(task.id, result.value, elapsed));
    } else {
      reply := Failure(500, ProcessingFailed, run.error);
    }
  }

  /**
   * A request without `agent_id` or `input_data` is answered 400 and creates
   * no task; any other creates one as processing whose metadata holds
   * `batch_mode` (false when not supplied) and `started_at`.
   */
  lemma SentimentValidation(db: Db, tenantId: string, req: SentimentRequest, classify: Value -> Result<Label>, now: int, elapsed: nat, f: Fault)
    ensures var h := SentimentPlan(db, tenantId, req, classify, now, elapsed, f);
      && (Rejected(req) <==> h.reply == Failure(400, MissingFields, None))
      && (Rejected(req) ==> h.run.done == [])
      && (!Rejected(req) && FaultAt(f, 0).None? ==>
            && h.run.done != [] && h.run.done[0].NewTask?
            && h.run.done[0].task.status == Processing
            && h.run.done[0].task.meta == map["batch_mode" := BatchMode(req), "started_at" := Number(now)]
            && (req.batchMode.None? ==> h.run.done[0].task.meta["batch_mode"] == Bool(false)))
  {
  }

  /**
   * Batch analysis runs exactly when `batch_mode` is truthy and `texts` is an
   * array; otherwise single analysis runs exactly when `text` is truthy.
   */
  lemma Dispatch(input: Value, batchMode: Value)
    ensures ModeOf(input, batchMode).Batched? <==> Truthy(batchMode) && Field(input, "texts").Some? && Field(input, "texts").value.Arr?
    ensures ModeOf(input, batchMode).Batched? ==> ModeOf(input, batchMode).texts == input.fields["texts"].items
    ensures ModeOf(input, batchMode).SingleText? <==>
      !ModeOf(input, batchMode).Batched? && Field(input, "text").Some? && Truthy(Field(input, "text").value)
    ensures ModeOf(input, batchMode).SingleText? ==> ModeOf(input, batchMode).text == input.fields["text"]
  {
  }

  /**
   * Without faults, an analysis that succeeds (other than a single answer
   * under a truthy `batch_mode`) writes, in order: the task created, the
   * task completed with its metadata kept and `processing_time_ms` added,
   * then the metric and the log of `SentimentRecords`; the reply is 200
   * with the result.
   */
  lemma SentimentSucceeds(db: Db, tenantId: string, req: SentimentRequest, classify: Value -> Result<Label>, now: int, elapsed: nat)
    requires !Rejected(req)
    requires Analyze(ModeOf(Input(req), BatchMode(req)), classify, now).Ok?
    requires !(Truthy(BatchMode(req)) && ModeOf(Input(req), BatchMode(req)).SingleText?)
    ensures var h := SentimentPlan(db, tenantId, req, classify, now, elapsed, NoFault);
      var result := Analyze(ModeOf(Input(req), BatchMode(req)), classify, now).value;
      var ws := h.run.done;
      && h.reply == Success(200, SentimentData(db.nextTask, result, elapsed))
      && |ws| == 4
      && ws[0].NewTask? && ws[0].task.status == Processing
      && ws[1].TaskUpdate? && ws[1].id == db.nextTask && ws[1].patch.MarkCompleted?
      && ws[1].patch.output == SentimentOutput(result)
      && ws[1].patch.meta == ws[0].task.meta + map["processing_time_ms" := Number(elapsed)]
      && ws[1].patch.meta.Keys == {"batch_mode", "started_at", "processing_time_ms"}
  {
    var task := TaskRow(db.nextTask, tenantId, req, now);
    var result := Analyze(ModeOf(Input(req), BatchMode(req)), classify, now).value;
    MetricValueOf(req, classify, now);
    var steps := SuccessSteps(task, BatchMode(req), result, elapsed, now);
    SuccessPlan(db, tenantId, req, classify, now, elapsed);
    SuccessWrites(task, BatchMode(req), result, elapsed, now);
    assert SentimentPlan(db, tenantId, req, classify, now, elapsed, NoFault).run.done[1] == Writes(steps)[0];
  }

  /**
   * The success path's last two writes: a successful metric whose value is
   * the number of texts in batch mode and 1 otherwise, and an info log.
   */
  lemma SentimentRecords(db: Db, tenantId: string, req: SentimentRequest, classify: Value -> Result<Label>, now: int, elapsed: nat)
    requires !Rejected(req)
    requires Analyze(ModeOf(Input(req), BatchMode(req)), classify, now).Ok?
    requires !(Truthy(BatchMode(req)) && ModeOf(Input(req), BatchMode(req)).SingleText?)
    ensures var ws := SentimentPlan(db, tenantId, req, classify, now, elapsed, NoFault).run.done;
      var mode := ModeOf(Input(req), BatchMode(req));
      && |ws| == 4
      && ws[2].NewMetric? && ws[2].metric.success && ws[2].metric.name == "sentiment_analysis"
      && ws[2].metric.value == (if mode.Batched? then |mode.texts| as real else 1.0)
      && ws[3].NewLog? && ws[3].entry.level == Info
  {
    var task := TaskRow(db.nextTask, tenantId, req, now);
    var result := Analyze(ModeOf(Input(req), BatchMode(req)), classify, now).value;
    MetricValueOf(req, classify, now);
    var steps := SuccessSteps(task, BatchMode(req), result, elapsed, now);
    SuccessPlan(db, tenantId, req, classify, now, elapsed);
    SuccessWrites(task, BatchMode(req), result, elapsed, now);
    var ws := SentimentPlan(db, tenantId, req, classify, now, elapsed, NoFault).run.done;
    assert ws[2] == Writes(steps)[1] && ws[3] == Writes(steps)[2];
  }

  /** Unless a truthy `batch_mode` meets a single text, the metric value is the number of texts analysed. */
  lemma MetricValueOf(req: SentimentRequest, classify: Value -> Result<Label>, now: int)
    requires Analyze(ModeOf(Input(req), BatchMode(req)), classify, now).Ok?
    requires !(Truthy(BatchMode(req)) && ModeOf(Input(req), BatchMode(req)).SingleText?)
    ensures var mode := ModeOf(Input(req), BatchMode(req));
      var v := MetricValue(BatchMode(req), Analyze(mode, classify, now).value);
      v.Ok? && v.value == if mode.Batched? then |mode.texts| as real else 1.0
  {
    var mode := ModeOf(Input(req), BatchMode(req));
    if mode.Batched? {
      BatchSpec(mode.texts, classify, now);
    }
  }

  /** Without faults, an analysis that succeeds and whose metric value exists runs the task creation and the success path. */
  lemma SuccessPlan(db: Db, tenantId: string, req: SentimentRequest, classify: Value -> Result<Label>, now: int, elapsed: nat)
    requires !Rejected(req)
    requires Analyze(ModeOf(Input(req), BatchMode(req)), classify, now).Ok?
    requires MetricValue(BatchMode(req), Analyze(ModeOf(Input(req), BatchMode(req)), classify, now).value).Ok?
    ensures var h := SentimentPlan(db, tenantId, req, classify, now, elapsed, NoFault);
      var task := TaskRow(db.nextTask, tenantId, req, now);
      var result := Analyze(ModeOf(Input(req), BatchMode(req)), classify, now).value;
      && NoCrash(SuccessSteps(task, BatchMode(req), result, elapsed, now))
      && h.run.done == [NewTask(task)] + Writes(SuccessSteps(task, BatchMode(req), result, elapsed, now))
      && h.reply == Success(200, SentimentData(db.nextTask, result, elapsed))
  {
    var task := TaskRow(db.nextTask, tenantId, req, now);
    LifecycleSucceeds(db, NewTask(task), Work(task, BatchMode(req), classify, elapsed, now), Recover(task, Analysis, elapsed, now));
  }

  /** The three writes of the success path when the metric value exists. */
  lemma SuccessWrites(task: Task, batchMode: Value, result: SentimentResult, elapsed: nat, now: int)
    requires MetricValue(batchMode, result).Ok?
    ensures NoCrash(SuccessSteps(task, batchMode, result, elapsed, now))
    ensures var ws := Writes(SuccessSteps(task, batchMode, result, elapsed, now));
      && |ws| == 3
      && ws[0] == TaskUpdate(task.id, MarkCompleted(SentimentOutput(result), now,
                                                    task.meta + map["processing_time_ms" := Number(elapsed)]))
      && ws[0].patch.meta.Keys == task.meta.Keys + {"processing_time_ms"}
      && ws[1].NewMetric? && ws[1].metric.success && ws[1].metric.name == "sentiment_analysis"
      && ws[1].metric.value == MetricValue(batchMode, result).value
      && ws[2].NewLog? && ws[2].entry.level == Info
  {
    var m := task.meta + map["processing_time_ms" := Number(elapsed)];
    assert m + map[] == m;
  }

  /**
   * Without faults, an analysis that fails, including a body with neither
   * usable `texts` nor `text`, writes the task, marks it failed with the
   * error, writes a 0-valued unsuccessful metric and an error log, and
   * answers 500 with the error.
   */
  lemma SentimentFails(db: Db, tenantId: string, req: SentimentRequest, classify: Value -> Result<Label>, now: int, elapsed: nat)
    requires !Rejected(req)
    requires Analyze(ModeOf(Input(req), BatchMode(req)), classify, now).Err?
    ensures var h := SentimentPlan(db, tenantId, req, classify, now, elapsed, NoFault);
      var m := Analyze(ModeOf(Input(req), BatchMode(req)), classify, now).message;
      && (ModeOf(Input(req), BatchMode(req)).NoText? ==> m == InvalidFormat)
      && h.reply == Failure(500, ProcessingFailed, Some(m))
      && |h.run.done| == 4 && h.run.done[0].NewTask?
      && FailureWrites(h.run.done[1..], db.nextTask, m, now)
  {
    var task := TaskRow(db.nextTask, tenantId, req, now);
    LifecycleWorkFails(db, NewTask(task), Work(task, BatchMode(req), classify, elapsed, now), Recover(task, Analysis, elapsed, now));
  }

  /**
   * A truthy `batch_mode` without a `texts` array but with a `text` runs the
   * single analysis; after the task is marked completed, reading
   * `result.results.length` throws, so the task is marked failed again, and
   * only the failure metric and the error log follow; the reply is 500.
   */
  lemma SingleUnderBatchMode(db: Db, tenantId: string, req: SentimentRequest, classify: Value -> Result<Label>, now: int, elapsed: nat)
    requires !Rejected(req)
    requires Truthy(BatchMode(req)) && ModeOf(Input(req), BatchMode(req)).SingleText?
    requires Analyze(ModeOf(Input(req), BatchMode(req)), classify, now).Ok?
    ensures var h := SentimentPlan(db, tenantId, req, classify, now, elapsed, NoFault);
      var ws := h.run.done;
      && h.reply == Failure(500, ProcessingFailed, Some(LengthOfUndefined))
      && |ws| == 5
      && ws[0].NewTask?
      && ws[1].TaskUpdate? && ws[1].id == db.nextTask && ws[1].patch.MarkCompleted?
      && FailureWrites(ws[2..], db.nextTask, LengthOfUndefined, now)
      && (forall i :: 0 <= i < |ws| ==> !(ws[i].NewMetric? && ws[i].metric.success))
      && (forall i :: 0 <= i < |ws| ==> !(ws[i].NewLog? && ws[i].entry.level == Info))
  {
    var task := TaskRow(db.nextTask, tenantId, req, now);
    var result := Analyze(ModeOf(Input(req), BatchMode(req)), classify, now).value;
    var steps := SuccessSteps(task, BatchMode(req), result, elapsed, now);
    var pre := [Completion(task, SentimentOutput(result), map[], elapsed, now)];
    var post := [CompletedLog(task, Analysis, map[], elapsed, now)];
    assert steps == pre + [Crash(LengthOfUndefined)] + post;
    LifecycleCrash(db, NewTask(task), Work(task, BatchMode(req), classify, elapsed, now), Recover(task, Analysis, elapsed, now),
                   pre, LengthOfUndefined, post);
  }

  /**
   * A store write of the success path that fails (attempt `k`) is caught
   * like a failed analysis: the writes before it stay, the failure writes
   * follow, and the reply is 500 with that write's error.
   */
  lemma SentimentLateFault(db: Db, tenantId: string, req: SentimentRequest, classify: Value -> Result<Label>, now: int, elapsed: nat, k: nat, m: string)
    requires !Rejected(req)
    requires Analyze(ModeOf(Input(req), BatchMode(req)), classify, now).Ok?
    requires !(Truthy(BatchMode(req)) && ModeOf(Input(req), BatchMode(req)).SingleText?)
    requires 1 <= k <= 3
    ensures var h := SentimentPlan(db, tenantId, req, classify, now, elapsed, FailAt(k, m));
      var task := TaskRow(db.nextTask, tenantId, req, now);
      var result := Analyze(ModeOf(Input(req), BatchMode(req)), classify, now).value;
      var steps := SuccessSteps(task, BatchMode(req), result, elapsed, now);
      && NoCrash(steps)
      && h.reply == Failure(500, ProcessingFailed, Some(m))
      && h.run.done == [NewTask(task)] + Writes(steps[..k - 1]) + Writes(FailureSteps(task, Analysis, elapsed, now, m))
  {
    var task := TaskRow(db.nextTask, tenantId, req, now);
    LifecycleLateFault(db, NewTask(task), Work(task, BatchMode(req), classify, elapsed, now), Recover(task, Analysis, elapsed, now), k, m);
  }

  /** `getAgentStatus` at time `now`. */
  function AgentStatusOf(db: Db, agentId: string, now: int): Reply<AgentStatus.StatusData<AgentStatus.Statistics>>
  {
    AgentStatus.Status(db, agentId, now, AgentStatus.StatisticsOf)
  }

  /**
   * A missing `agentId` is answered 400; otherwise the success rate is 0
   * without tasks and a fraction otherwise, and at most ten metrics and five
   * tasks are listed.
   */
  lemma SentimentStatus(db: Db, agentId: string, now: int)
    ensures agentId == "" <==> AgentStatusOf(db, agentId, now).Failure?
    ensures agentId == "" ==> AgentStatusOf(db, agentId, now).status == 400
    ensures agentId != "" ==>
      var d := AgentStatusOf(db, agentId, now).data;
      && (d.statistics.totalTasks == 0 ==> d.statistics.successRate == 0.0)
      && 0.0 <= d.statistics.successRate <= 1.0
      && d.statistics.completedTasks + d.statistics.failedTasks <= d.statistics.totalTasks
      && |d.recentMetrics| <= 10 && |d.recentTasks| <= 5
  {
    AgentStatus.StatusSpec(db, agentId, now, AgentStatus.StatisticsOf);
    if agentId != "" {
      AgentStatus.StatisticsBounds(GetTasks(db, agentId, ""), AgentStatus.RecentMetrics(db, agentId, now));
    }
  }
}
