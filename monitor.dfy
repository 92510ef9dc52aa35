/**
 * The POST path of api/performance-monitor.js: `performMonitoring` creates a
 * task, runs `performComprehensiveMonitoring` against the store, records the
 * outcome, and persists the alerts as logs (`generateAlerts`).
 */
module Monitor {
  import opened Wrappers
  import opened Json
  import opened Strings
  import opened Domain
  import opened Lists
  import opened Database
  import opened Storage
  import opened Health
  import opened Tasks

  /** The body of the request: `agent_id` ("" when missing or empty) and `monitoring_type` when supplied. */
  datatype MonitorRequest = MonitorRequest(agentId: string, monitoringType: Option<Value>)

  /** The `data` of a successful reply. */
  datatype MonitorData = MonitorData(taskId: nat, result: MonitoringResult, processingTimeMs: nat)

  const PerformanceMonitoring: Activity := Activity("performance_monitoring", "Performance monitoring")

  /** `monitoring_type = 'comprehensive'`: the default applies only when the field is absent. */
  function MonitoringType(req: MonitorRequest): Value
  {
    if req.monitoringType.Some? then req.monitoringType.value else Str("comprehensive")
  }

  function InfoOf(agent: Agent): AgentInfo
  {
    AgentInfo(agent.id, agent.name, agent.kind, agent.status, agent.version)
  }

  /**
   * `performComprehensiveMonitoring(tenantId, agentId)` at time `now`: the
   * agent lookup fails unless exactly one agent has the id; otherwise the
   * snapshot is taken over the agent's tasks, its metrics of the last 24 h
   * and its logs, and scored.
   */
  function Monitoring(db: Db, tenantId: string, agentId: string, now: int): Result<MonitoringResult>
  {
    var found := GetAgentById(db, agentId);
    if found.Err? then Err(found.message)
    else
      var p := Snapshot(GetTasks(db, agentId, tenantId), GetMetrics(db, agentId, tenantId, Some(now - Health.DayMs)),
                        GetLogs(db, agentId, tenantId), now);
      var healthScore := 100 - Deductions(p);
      Ok(MonitoringResult(InfoOf(found.value), p, Clamp(healthScore), StatusOf(healthScore), Alerts(p),
                          Recommendations(p, healthScore), now))
  }

  /** The reads and the scoring of `performComprehensiveMonitoring`, in the source's order. */
  method ComprehensiveMonitoring(store: Store, tenantId: string, agentId: string, now: int) returns (r: Result<MonitoringResult>)
    ensures r == Monitoring(store.State(), tenantId, agentId, now)
  {
    var db := store.State();
    var found := GetAgentById(db, agentId);
    if found.Err? {
      return Err(found.message);
    }
    var tasks := GetTasks(db, agentId, tenantId);
    var metrics := GetMetrics(db, agentId, tenantId, Some(now - Health.DayMs));
    var logs := GetLogs(db, agentId, tenantId);
    var p := Snapshot(tasks, metrics, logs, now);
    var healthScore, alerts := Assess(p);
    return Ok(MonitoringResult(InfoOf(found.value), p, Clamp(healthScore), StatusOf(healthScore), alerts,
                               Recommendations(p, healthScore), now));
  }

  function TaskRow(id: nat, tenantId: string, req: MonitorRequest, now: int): Task
  {
    NewTaskRow(id, tenantId, req.agentId, Obj(map["monitoring_type" := MonitoringType(req)]), map["started_at" := Number(now)], now)
  }

  /** The log `generateAlerts` writes for one alert: its type and the alert itself as metadata. */
  function AlertLog(tenantId: string, agentId: string, alert: Alert, now: int): LogEntry
  {
    LogEntry(tenantId, agentId, if alert.severity == High then Error else Warning, AlertText(alert.message),
             map["alert_type" := Str(KindName(alert.kind)), "alert_data" := AlertData(alert)], now)
  }

  /** The alert object as stored under `alert_data`, without its formatted message. */
  function AlertData(alert: Alert): Value
  {
    Obj(map["type" := Str(KindName(alert.kind)), "severity" := Str(SeverityName(alert.severity)),
            "threshold" := Num(alert.threshold), "current_value" := Num(alert.currentValue)])
  }

  function SeverityName(severity: Severity): string
  {
    match severity
    case High => "high"
    case Medium => "medium"
    case Low => "low"
  }

  function KindName(kind: AlertKind): string
  {
    match kind
    case ErrorRateAlert => "error_rate"
    case ProcessingTimeAlert => "processing_time"
    case InactivityAlert => "inactivity"
  }

  function AlertSteps(tenantId: string, agentId: string, alerts: seq<Alert>, now: int): (steps: seq<Step>)
    ensures |steps| == |alerts| && NoCrash(steps)
  {
    seq(|alerts|, i requires 0 <= i < |alerts| => Do(NewLog(AlertLog(tenantId, agentId, alerts[i], now))))
  }

  /** The writes after a successful monitoring: task completed, success metric, info log, then one log per alert. */
  function SuccessSteps(task: Task, result: MonitoringResult, req: MonitorRequest, elapsed: nat, now: int): (steps: seq<Step>)
    ensures NoCrash(steps) && |steps| == 3 + |result.alerts|
  {
    [ Completion(task, MonitoringOutput(result), map[], elapsed, now),
      SuccessMetric(task, PerformanceMonitoring, result.score as real, map["monitoring_type" := MonitoringType(req)], elapsed, now),
      CompletedLog(task, PerformanceMonitoring, map["health_score" := Number(result.score)], elapsed, now) ]
    + AlertSteps(task.tenantId, task.agentId, result.alerts, now)
  }

  function WorkOf(task: Task, result: Result<MonitoringResult>, req: MonitorRequest, elapsed: nat, now: int): Result<seq<Step>>
  {
    if result.Ok? then Ok(SuccessSteps(task, result.value, req, elapsed, now)) else Err(result.message)
  }

  function Work(task: Task, req: MonitorRequest, elapsed: nat, now: int): Db -> Result<seq<Step>>
  {
    (db: Db) => WorkOf(task, Monitoring(db, task.tenantId, req.agentId, now), req, elapsed, now)
  }

  /**
   * What `performMonitoring` does for a request of tenant `tenantId` at time
   * `now`, the work taking `elapsed` ms, under the write faults `f`.
   */
  function MonitorPlan(db: Db, tenantId: string, req: MonitorRequest, now: int, elapsed: nat, f: Fault): Handled<MonitorData>
  {
    if req.agentId == "" then Handled(Run([], None, 0), Failure(400, "agent_id is required", None))
    else
      var task := TaskRow(db.nextTask, tenantId, req, now);
      var run := Lifecycle(db, NewTask(task), Work(task, req, elapsed, now), Recover(task, PerformanceMonitoring, elapsed, now), f);
      var result := Monitoring(Apply(db, NewTask(task)), tenantId, req.agentId, now);
      Handled(run, if run.error.None? && result.Ok? then Success(200, MonitorData(task.id, result.value, elapsed))
                   else Failure(500, "Failed to perform monitoring", run.error))
  }

  /** `performMonitoring`: validation, task creation, monitoring, and the writes of the try or catch block. */
  method PerformMonitoring(store: Store, tenantId: string, req: MonitorRequest, now: int, elapsed: nat, f: Fault)
    returns (reply: Reply<MonitorData>)
    modifies store
    ensures var h := MonitorPlan(old(store.State()), tenantId, req, now, elapsed, f);
      reply == h.reply && store.State() == ApplyAll(old(store.State()), h.run.done)
  {
    if req.agentId == "" {
      return Failure(400, "agent_id is required", None);
    }
    ghost var db := store.State();
    var task := TaskRow(store.nextTask, tenantId, req, now);
    var error := store.CreateTask(task, FaultAt(f, 0));
    if error.Some? {
      return Failure(500, "Failed to perform monitoring", error);
    }
    assert [NewTask(task)][..0] == [];
    var result := ComprehensiveMonitoring(store, tenantId, req.agentId, now);
    var run := store.Settle(WorkOf(task, result, req, elapsed, now), Recover(task, PerformanceMonitoring, elapsed, now), f);
    ApplyAllConcat(db, [NewTask(task)], run.done);
    if run.error.None? && result.Ok? {
      reply := Success(200, MonitorData(task.id, result.value, elapsed));
    } else {
      reply := Failure(500, "Failed to perform monitoring", run.error);
    }
  }

  /** A request without `agent_id` is answered 400 and writes nothing. */
  lemma MissingAgentId(db: Db, tenantId: string, req: MonitorRequest, now: int, elapsed: nat, f: Fault)
    requires req.agentId == ""
    ensures MonitorPlan(db, tenantId, req, now, elapsed, f).reply.status == 400
    ensures MonitorPlan(db, tenantId, req, now, elapsed, f).run.done == []
  {
  }

  /**
   * Without faults, a monitoring that succeeds writes, in order: the task
   * created as processing, the task completed, one success metric whose
   * value is the score, one info log, and then the alert logs of
   * `MonitorAlertLogs`; the reply is 200 with the result.
   */
  lemma MonitorSucceeds(db: Db, tenantId: string, req: MonitorRequest, now: int, elapsed: nat)
    requires req.agentId != ""
    requires Monitoring(Apply(db, NewTask(TaskRow(db.nextTask, tenantId, req, now))), tenantId, req.agentId, now).Ok?
    ensures var h := MonitorPlan(db, tenantId, req, now, elapsed, NoFault);
      var result := Monitoring(Apply(db, NewTask(TaskRow(db.nextTask, tenantId, req, now))), tenantId, req.agentId, now).value;
      var ws := h.run.done;
      && h.reply == Success(200, MonitorData(db.nextTask, result, elapsed))
      && |ws| == 4 + |result.alerts|
      && ws[0].NewTask? && ws[0].task.status == Processing && ws[0].task.id == db.nextTask
      && ws[1].TaskUpdate? && ws[1].id == db.nextTask && ws[1].patch.MarkCompleted?
      && ws[2].NewMetric? && ws[2].metric.success && ws[2].metric.value == result.score as real
      && ws[3].NewLog? && ws[3].entry.level == Info
  {
    var task := TaskRow(db.nextTask, tenantId, req, now);
    var result := Monitoring(Apply(db, NewTask(task)), tenantId, req.agentId, now).value;
    var steps := SuccessSteps(task, result, req, elapsed, now);
    SuccessPlan(db, tenantId, req, now, elapsed);
    var ws := MonitorPlan(db, tenantId, req, now, elapsed, NoFault).run.done;
    assert ws[1] == Writes(steps)[0] && ws[2] == Writes(steps)[1] && ws[3] == Writes(steps)[2];
  }

  /**
   * `w` is the log of `alert`: its message, level error for a high alert and
   * warning otherwise, and the alert's type and the alert as metadata.
   */
  predicate AlertLogged(w: Write, alert: Alert)
  {
    && w.NewLog?
    && w.entry.message == AlertText(alert.message)
    && w.entry.level == (if alert.severity == High then Error else Warning)
    && w.entry.meta == map["alert_type" := Str(KindName(alert.kind)), "alert_data" := AlertData(alert)]
  }

  /**
   * After the four writes of `MonitorSucceeds` comes one log per alert, in
   * list order, with the alert's message, at level error when the alert's
   * severity is high and warning otherwise, and the alert as metadata.
   */
  lemma MonitorAlertLogs(db: Db, tenantId: string, req: MonitorRequest, now: int, elapsed: nat)
    requires req.agentId != ""
    requires Monitoring(Apply(db, NewTask(TaskRow(db.nextTask, tenantId, req, now))), tenantId, req.agentId, now).Ok?
    ensures var result := Monitoring(Apply(db, NewTask(TaskRow(db.nextTask, tenantId, req, now))), tenantId, req.agentId, now).value;
      var ws := MonitorPlan(db, tenantId, req, now, elapsed, NoFault).run.done;
      && |ws| == 4 + |result.alerts|
      && (forall i :: 0 <= i < |result.alerts| ==> AlertLogged(ws[4 + i], result.alerts[i]))
  {
    var task := TaskRow(db.nextTask, tenantId, req, now);
    var result := Monitoring(Apply(db, NewTask(task)), tenantId, req.agentId, now).value;
    SuccessPlan(db, tenantId, req, now, elapsed);
    AlertWrites(MonitorPlan(db, tenantId, req, now, elapsed, NoFault).run.done, task, result, req, elapsed, now);
  }

  /** The writes after the first four of the success path are the alert logs. */
  lemma AlertWrites(ws: seq<Write>, task: Task, result: MonitoringResult, req: MonitorRequest, elapsed: nat, now: int)
    requires ws == [NewTask(task)] + Writes(SuccessSteps(task, result, req, elapsed, now))
    ensures |ws| == 4 + |result.alerts|
    ensures forall i :: 0 <= i < |result.alerts| ==> AlertLogged(ws[4 + i], result.alerts[i])
  {
    var steps := SuccessSteps(task, result, req, elapsed, now);
    var alertSteps := AlertSteps(task.tenantId, task.agentId, result.alerts, now);
    forall i | 0 <= i < |result.alerts|
      ensures ws[4 + i] == NewLog(AlertLog(task.tenantId, task.agentId, result.alerts[i], now))
    {
      assert ws[4 + i] == Writes(steps)[3 + i];
      assert steps[3 + i] == alertSteps[i];
    }
  }

  /** Without faults, a monitoring that succeeds runs the task creation and the success path. */
  lemma SuccessPlan(db: Db, tenantId: string, req: MonitorRequest, now: int, elapsed: nat)
    requires req.agentId != ""
    requires Monitoring(Apply(db, NewTask(TaskRow(db.nextTask, tenantId, req, now))), tenantId, req.agentId, now).Ok?
    ensures var h := MonitorPlan(db, tenantId, req, now, elapsed, NoFault);
      var task := TaskRow(db.nextTask, tenantId, req, now);
      var result := Monitoring(Apply(db, NewTask(task)), tenantId, req.agentId, now).value;
      && h.run.done == [NewTask(task)] + Writes(SuccessSteps(task, result, req, elapsed, now))
      && h.reply == Success(200, MonitorData(db.nextTask, result, elapsed))
  {
    var task := TaskRow(db.nextTask, tenantId, req, now);
    LifecycleSucceeds(db, NewTask(task), Work(task, req, elapsed, now), Recover(task, PerformanceMonitoring, elapsed, now));
  }

  /**
   * Without faults, a monitoring that fails (the agent lookup) writes the
   * task, marks it failed with the error, writes a 0-valued failure metric
   * and an error log, and answers 500 with the error.
   */
  lemma MonitorFails(db: Db, tenantId: string, req: MonitorRequest, now: int, elapsed: nat)
    requires req.agentId != ""
    requires Monitoring(Apply(db, NewTask(TaskRow(db.nextTask, tenantId, req, now))), tenantId, req.agentId, now).Err?
    ensures var h := MonitorPlan(db, tenantId, req, now, elapsed, NoFault);
      var m := Monitoring(Apply(db, NewTask(TaskRow(db.nextTask, tenantId, req, now))), tenantId, req.agentId, now).message;
      var ws := h.run.done;
      && h.reply == Failure(500, "Failed to perform monitoring", Some(m))
      && |ws| == 4
      && ws[1] == TaskUpdate(db.nextTask, MarkFailed(m, now))
      && ws[2].NewMetric? && !ws[2].metric.success && ws[2].metric.value == 0.0
      && ws[3].NewLog? && ws[3].entry.level == Error
  {
    var task := TaskRow(db.nextTask, tenantId, req, now);
    LifecycleWorkFails(db, NewTask(task), Work(task, req, elapsed, now), Recover(task, PerformanceMonitoring, elapsed, now));
  }

  /**
   * A store write of the success path that fails (attempt `k`) is caught like
   * a failed monitoring: the writes before it stay, the failure writes
   * follow, and the reply is 500 with that write's error.
   */
  lemma MonitorLateFault(db: Db, tenantId: string, req: MonitorRequest, now: int, elapsed: nat, k: nat, m: string)
    requires req.agentId != ""
    requires Monitoring(Apply(db, NewTask(TaskRow(db.nextTask, tenantId, req, now))), tenantId, req.agentId, now).Ok?
    requires 1 <= k <= 3 + |Monitoring(Apply(db, NewTask(TaskRow(db.nextTask, tenantId, req, now))), tenantId, req.agentId, now).value.alerts|
    ensures var h := MonitorPlan(db, tenantId, req, now, elapsed, FailAt(k, m));
      var task := TaskRow(db.nextTask, tenantId, req, now);
      var result := Monitoring(Apply(db, NewTask(task)), tenantId, req.agentId, now).value;
      && h.reply == Failure(500, "Failed to perform monitoring", Some(m))
      && h.run.done == [NewTask(task)] + Writes(SuccessSteps(task, result, req, elapsed, now)[..k - 1])
                       + Writes(FailureSteps(task, PerformanceMonitoring, elapsed, now, m))
  {
    var task := TaskRow(db.nextTask, tenantId, req, now);
    LifecycleLateFault(db, NewTask(task), Work(task, req, elapsed, now), Recover(task, PerformanceMonitoring, elapsed, now), k, m);
  }

  lemma {:induction false} CountCreated(tasks: seq<Task>, t: Task, agentId: string, tenantId: string, now: int)
    requires t.agentId == agentId && t.tenantId == tenantId && t.createdAt == now
    ensures Count(Filter(tasks + [t], (x: Task) => Matches(agentId, x.agentId) && Matches(tenantId, x.tenantId)),
                  (x: Task) => x.createdAt > now - Health.DayMs) >= 1
  {
    var p := (x: Task) => Matches(agentId, x.agentId) && Matches(tenantId, x.tenantId);
    assert (tasks + [t])[..|tasks|] == tasks;
    assert Filter(tasks + [t], p) == Filter(tasks, p) + [t];
    CountAppend(Filter(tasks, p), t, (x: Task) => x.createdAt > now - Health.DayMs);
  }

  /**
   * On the POST path the task created for the monitoring run is one of the
   * agent's tasks of the last 24 hours, so the inactivity deduction and the
   * inactivity alert never apply there.
   */
  lemma NeverInactiveWhenPosted(db: Db, tenantId: string, req: MonitorRequest, now: int)
    requires req.agentId != ""
    requires Monitoring(Apply(db, NewTask(TaskRow(db.nextTask, tenantId, req, now))), tenantId, req.agentId, now).Ok?
    ensures var result := Monitoring(Apply(db, NewTask(TaskRow(db.nextTask, tenantId, req, now))), tenantId, req.agentId, now).value;
      result.performance.tasksLast24h >= 1 && !HasAlert(result.alerts, InactivityAlert)
  {
    var task := TaskRow(db.nextTask, tenantId, req, now);
    CountCreated(db.tasks, task, req.agentId, tenantId, now);
    var result := Monitoring(Apply(db, NewTask(task)), tenantId, req.agentId, now).value;
    AlertsSpec(result.performance);
  }
}
