/**
 * The rows the three task handlers (api/performance-monitor.js,
 * api/recommendation-agent.js, api/sentiment-agent.js) write around their
 * work: the task created as processing, the completion update, the success
 * metric, the info log, and the three writes of the `catch` block.
 */
module Tasks {
  import opened Wrappers
  import opened Json
  import opened Strings
  import opened Domain
  import opened Database
  import opened Storage

  /** What a handler did to the store and what it answered. */
  datatype Handled<T> = Handled(run: Run, reply: Reply<T>)

  /** The kind of work a handler records: the success metric's name and the text of its logs. */
  datatype Activity = Activity(metricName: string, description: string)

  function Number(n: int): Value
  {
    Num(n as real)
  }

  /** The row `createTask` inserts for the next task id. */
  function NewTaskRow(id: nat, tenantId: string, agentId: string, input: Value, meta: map<string, Value>, now: int): Task
  {
    Task(id, tenantId, agentId, Processing, input, None, None, meta, now, None)
  }

  /** `updateTask(task.id, {status: 'completed', output_data, completed_at, metadata: {...task.metadata, processing_time_ms, ...extra}})`. */
  function Completion(task: Task, output: Output, extra: map<string, Value>, elapsed: nat, now: int): Step
  {
    Do(TaskUpdate(task.id, MarkCompleted(output, now, task.meta + map["processing_time_ms" := Number(elapsed)] + extra)))
  }

  /** The success metric `recordMetrics({metric_name, metric_value, success: true, ...})`. */
  function SuccessMetric(task: Task, activity: Activity, value: real, meta: map<string, Value>, elapsed: nat, now: int): Step
  {
    Do(NewMetric(Metric(task.tenantId, task.agentId, activity.metricName, value, elapsed, true, meta, now)))
  }

  /** The info log `"<activity> completed for task <id>"` with `task_id`, `processing_time` and `extra`. */
  function CompletedLog(task: Task, activity: Activity, extra: map<string, Value>, elapsed: nat, now: int): Step
  {
    Do(NewLog(LogEntry(task.tenantId, task.agentId, Info,
                       Text(activity.description + " completed for task " + NatToString(task.id)),
                       map["task_id" := Number(task.id), "processing_time" := Number(elapsed)] + extra, now)))
  }

  /**
   * The writes of the `catch` block for the error `m`: the task marked
   * failed with the message, a 0-valued unsuccessful `<metric>_error`
   * metric, and an error log.
   */
  function FailureSteps(task: Task, activity: Activity, elapsed: nat, now: int, m: string): (steps: seq<Step>)
    ensures NoCrash(steps) && |steps| == 3
  {
    [ Do(TaskUpdate(task.id, MarkFailed(m, now))),
      Do(NewMetric(Metric(task.tenantId, task.agentId, activity.metricName + "_error", 0.0, elapsed, false,
                          map["error" := Str(m)], now))),
      Do(NewLog(LogEntry(task.tenantId, task.agentId, Error,
                         Text(activity.description + " failed for task " + NatToString(task.id)),
                         map["task_id" := Number(task.id), "error" := Str(m)], now))) ]
  }

  function Recover(task: Task, activity: Activity, elapsed: nat, now: int): string -> seq<Step>
  {
    (m: string) => FailureSteps(task, activity, elapsed, now, m)
  }

  /** The catch block marks the task failed with the error, records an unsuccessful 0-valued metric and logs at level error. */
  predicate FailureWrites(ws: seq<Write>, id: nat, m: string, now: int)
  {
    && |ws| == 3
    && ws[0] == TaskUpdate(id, MarkFailed(m, now))
    && ws[1].NewMetric? && !ws[1].metric.success && ws[1].metric.value == 0.0
    && ws[2].NewLog? && ws[2].entry.level == Error
  }

  lemma FailureStepsWrite(task: Task, activity: Activity, elapsed: nat, now: int, m: string)
    ensures FailureWrites(Writes(FailureSteps(task, activity, elapsed, now, m)), task.id, m, now)
  {
  }
}
