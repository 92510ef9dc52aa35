/**
 * The `getAgentStatus` handlers of api/recommendation-agent.js and
 * api/sentiment-agent.js: the agent's metrics of the last 24 hours and all
 * its tasks (of every tenant), summarised, and the first rows of each as
 * the store returns them (in table order: the queries set no order).
 */
module AgentStatus {
  import opened Wrappers
  import opened Domain
  import opened Lists
  import opened Database
  import Health

  /** The `statistics` both agents report. */
  datatype Statistics = Statistics(
    totalTasks: nat,
    completedTasks: nat,
    failedTasks: nat,
    averageProcessingTime: real,
    successRate: real)

  /** The `data` of the reply; `S` is the agent's statistics object. */
  datatype StatusData<S> = StatusData(agentId: string, statistics: S, recentMetrics: seq<Metric>, recentTasks: seq<Task>)

  const MissingAgentId: string := "agentId parameter is required"

  function IsCompleted(t: Task): bool { t.status == Completed }
  function IsFailed(t: Task): bool { t.status == Failed }

  /** The counts, the `|| 0` average of the metrics' processing times and the completed share of the tasks. */
  function StatisticsOf(tasks: seq<Task>, metrics: seq<Metric>): Statistics
  {
    Statistics(|tasks|, Count(tasks, IsCompleted), Count(tasks, IsFailed),
               Health.Average(Health.TotalTime(metrics), |metrics|), Health.Rate(Count(tasks, IsCompleted), |tasks|))
  }

  /**
   * The success rate is 0 without tasks and a fraction otherwise; completed
   * and failed tasks are disjoint; the average is 0 without metrics.
   */
  lemma StatisticsBounds(tasks: seq<Task>, metrics: seq<Metric>)
    ensures var s := StatisticsOf(tasks, metrics);
      && (|tasks| == 0 ==> s.successRate == 0.0)
      && 0.0 <= s.successRate <= 1.0
      && s.completedTasks + s.failedTasks <= s.totalTasks
      && (|metrics| == 0 ==> s.averageProcessingTime == 0.0)
      && (|tasks| > 0 ==> s.successRate * |tasks| as real == s.completedTasks as real)
  {
    CountDisjoint(tasks, IsCompleted, IsFailed);
  }

  /** `getMetrics({agent_id, from_date})` for the last 24 hours before `now`. */
  function RecentMetrics(db: Db, agentId: string, now: int): seq<Metric>
  {
    GetMetrics(db, agentId, "", Some(now - Health.DayMs))
  }

  /**
   * `getAgentStatus` at time `now`, with `stats` computing the agent's
   * statistics object from the tasks and metrics. A missing agent id is
   * rejected before any query.
   */
  function Status<S>(db: Db, agentId: string, now: int, stats: (seq<Task>, seq<Metric>) -> S): Reply<StatusData<S>>
  {
    if agentId == "" then Failure(400, MissingAgentId, None)
    else
      var metrics := RecentMetrics(db, agentId, now);
      var tasks := GetTasks(db, agentId, "");
      Success(200, StatusData(agentId, stats(tasks, metrics), Take(metrics, 10), Take(tasks, 5)))
  }

  /**
   * Without an agent id the answer is 400; otherwise the statistics cover all
   * of the agent's tasks and 24-hour metrics, and the lists are their first
   * ten and first five rows, each belonging to the agent.
   */
  lemma StatusSpec<S>(db: Db, agentId: string, now: int, stats: (seq<Task>, seq<Metric>) -> S)
    ensures agentId == "" <==> Status(db, agentId, now, stats) == Failure(400, MissingAgentId, None)
    ensures agentId != "" ==>
      var r := Status(db, agentId, now, stats);
      var metrics := RecentMetrics(db, agentId, now);
      var tasks := GetTasks(db, agentId, "");
      && r.Success? && r.status == 200
      && r.data.statistics == stats(tasks, metrics)
      && |r.data.recentMetrics| <= 10 && |r.data.recentTasks| <= 5
      && r.data.recentMetrics <= metrics && r.data.recentTasks <= tasks
      && (forall i :: 0 <= i < |r.data.recentMetrics| ==>
            r.data.recentMetrics[i].agentId == agentId && r.data.recentMetrics[i].createdAt >= now - Health.DayMs)
      && (forall i :: 0 <= i < |r.data.recentTasks| ==> r.data.recentTasks[i].agentId == agentId)
  {
  }
}
