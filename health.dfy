/**
 * The health scoring of api/performance-monitor.js: the performance
 * snapshot of one agent, the 0-100 score, its status tier, the alerts and
 * the advice strings. Rates and averages are exact reals.
 */
module Health {
  import opened Domain
  import opened Lists

  const DayMs: int := 24 * 60 * 60 * 1000
  const WeekMs: int := 7 * DayMs

  /** `part / total` when there is something to divide by, else 0. */
  function Rate(part: nat, total: nat): (r: real)
    ensures total == 0 ==> r == 0.0
    ensures part <= total ==> 0.0 <= r <= 1.0
  {
    if total > 0 then part as real / total as real else 0.0
  }

  /** `sum / n || 0`: the quotient, or 0 for the `NaN` of an empty list. */
  function Average(sum: real, n: nat): real
  {
    if n > 0 then sum / n as real else 0.0
  }

  function TotalTime(metrics: seq<Metric>): real
  {
    Sum(metrics, (m: Metric) => m.processingTime as real)
  }

  lemma TotalTimeAppend(metrics: seq<Metric>, m: Metric)
    ensures TotalTime(metrics + [m]) == TotalTime(metrics) + m.processingTime as real
  {
    assert (metrics + [m])[..|metrics|] == metrics;
  }

  /** The `performance` object built from an agent's tasks, last-24h metrics and logs at time `now`. */
  function Snapshot(tasks: seq<Task>, metrics: seq<Metric>, logs: seq<LogEntry>, now: int): Performance
  {
    var total := |tasks|;
    var completed := Count(tasks, (t: Task) => t.status == Completed);
    var failed := Count(tasks, (t: Task) => t.status == Failed);
    Performance(
      total, completed, failed,
      Count(tasks, (t: Task) => t.status == Pending),
      Count(tasks, (t: Task) => t.status == Processing),
      Rate(completed, total),
      Average(TotalTime(metrics), |metrics|),
      Rate(failed, total),
      Count(tasks, (t: Task) => t.createdAt > now - DayMs),
      Count(tasks, (t: Task) => t.createdAt > now - WeekMs),
      Count(logs, (e: LogEntry) => e.level == Error),
      Count(logs, (e: LogEntry) => e.level == Warning),
      Count(logs, (e: LogEntry) => e.level == Info))
  }

  lemma RateSum(a: nat, b: nat, total: nat)
    requires a + b <= total
    ensures Rate(a, total) + Rate(b, total) <= 1.0
  {
    if total > 0 {
      DivideSum(a as real, b as real, total as real);
      DivideAtMostOne((a + b) as real, total as real);
    }
  }

  lemma DivideSum(p: real, q: real, t: real)
    requires t > 0.0
    ensures p / t + q / t == (p + q) / t
  {
  }

  lemma DivideAtMostOne(n: real, t: real)
    requires 0.0 <= n <= t && t > 0.0
    ensures n / t <= 1.0
  {
  }

  /**
   * The rates are 0 without tasks and otherwise fractions whose sum is at
   * most 1; the average is 0 without metrics; the activity windows nest.
   */
  lemma SnapshotBounds(tasks: seq<Task>, metrics: seq<Metric>, logs: seq<LogEntry>, now: int)
    ensures var p := Snapshot(tasks, metrics, logs, now);
      && (|tasks| == 0 ==> p.successRate == 0.0 && p.errorRate == 0.0)
      && 0.0 <= p.successRate <= 1.0 && 0.0 <= p.errorRate <= 1.0
      && p.successRate + p.errorRate <= 1.0
      && (|metrics| == 0 ==> p.averageProcessingTime == 0.0)
      && p.tasksLast24h <= p.tasksLast7d <= p.totalTasks
      && p.completedTasks + p.failedTasks <= p.totalTasks
  {
    var p := Snapshot(tasks, metrics, logs, now);
    CountDisjoint(tasks, (t: Task) => t.status == Completed, (t: Task) => t.status == Failed);
    CountMonotone(tasks, (t: Task) => t.createdAt > now - DayMs, (t: Task) => t.createdAt > now - WeekMs);
    RateSum(p.completedTasks, p.failedTasks, p.totalTasks);
  }

  /** The points the source subtracts from 100, condition by condition. */
  function Deductions(p: Performance): nat
  {
    (if p.errorRate > 0.1 then 20 else 0)
    + (if p.errorRate > 0.2 then 30 else 0)
    + (if p.averageProcessingTime > 5000.0 then 15 else 0)
    + (if p.averageProcessingTime > 10000.0 then 25 else 0)
    + (if p.tasksLast24h == 0 then 10 else 0)
    + (if p.errorLogs > 5 then 15 else 0)
  }

  /** `overall_health_score`: `Math.max(0, healthScore)`. */
  function Clamp(healthScore: int): int
  {
    if healthScore < 0 then 0 else healthScore
  }

  /** `health_status`, computed by the source from the unclamped score. */
  function StatusOf(healthScore: int): HealthStatus
  {
    if healthScore >= 80 then Healthy else if healthScore >= 60 then Warned else Critical
  }

  function ErrorRateAlertOf(p: Performance): Alert
  {
    Alert(ErrorRateAlert, High, HighErrorRate(p.errorRate * 100.0), 20.0, p.errorRate * 100.0)
  }

  function SlowAlertOf(p: Performance): Alert
  {
    Alert(ProcessingTimeAlert, Medium, SlowProcessing(p.averageProcessingTime), 10000.0, p.averageProcessingTime)
  }

  const InactivityAlertValue: Alert := Alert(InactivityAlert, Low, NoRecentTasks, 1.0, 0.0)

  /** The alerts of a snapshot, each present when its condition holds, in the source's order. */
  function Alerts(p: Performance): seq<Alert>
  {
    (if p.errorRate > 0.2 then [ErrorRateAlertOf(p)] else [])
    + (if p.averageProcessingTime > 10000.0 then [SlowAlertOf(p)] else [])
    + (if p.tasksLast24h == 0 then [InactivityAlertValue] else [])
  }

  /**
   * The scoring part of `performComprehensiveMonitoring`: `healthScore`
   * starts at 100 and is decremented condition by condition, then the
   * alerts are pushed one by one.
   */
  method Assess(p: Performance) returns (healthScore: int, alerts: seq<Alert>)
    ensures healthScore == 100 - Deductions(p)
    ensures alerts == Alerts(p)
  {
    healthScore := 100;
    if p.errorRate > 0.1 { healthScore := healthScore - 20; }
    if p.errorRate > 0.2 { healthScore := healthScore - 30; }
    if p.averageProcessingTime > 5000.0 { healthScore := healthScore - 15; }
    if p.averageProcessingTime > 10000.0 { healthScore := healthScore - 25; }
    if p.tasksLast24h == 0 { healthScore := healthScore - 10; }
    if p.errorLogs > 5 { healthScore := healthScore - 15; }

    alerts := [];
    if p.errorRate > 0.2 {
      alerts := alerts + [ErrorRateAlertOf(p)];
    }
    if p.averageProcessingTime > 10000.0 {
      alerts := alerts + [SlowAlertOf(p)];
    }
    if p.tasksLast24h == 0 {
      alerts := alerts + [InactivityAlertValue];
    }
  }

  /** The score is `max(0, 100 - deductions)` and always lies in [0, 100]; the raw score never drops below -15. */
  lemma ScoreBounds(p: Performance)
    ensures Deductions(p) <= 115
    ensures 0 <= Clamp(100 - Deductions(p)) <= 100
    ensures Clamp(100 - Deductions(p)) == if Deductions(p) >= 100 then 0 else 100 - Deductions(p)
  {
  }

  /** Clamping does not change the tier: healthy at >= 80, warning at >= 60, critical below. */
  lemma StatusOfClamped(healthScore: int)
    requires healthScore >= -15
    ensures StatusOf(healthScore) == StatusOf(Clamp(healthScore))
    ensures StatusOf(healthScore) == Healthy <==> Clamp(healthScore) >= 80
    ensures StatusOf(healthScore) == Warned <==> 60 <= Clamp(healthScore) < 80
    ensures StatusOf(healthScore) == Critical <==> Clamp(healthScore) < 60
  {
  }

  /** A worse error rate, a slower average, more error logs, or losing recent activity never raise the score. */
  lemma ScoreMonotone(p: Performance, q: Performance)
    requires p.errorRate <= q.errorRate
    requires p.averageProcessingTime <= q.averageProcessingTime
    requires p.errorLogs <= q.errorLogs
    requires p.tasksLast24h == 0 ==> q.tasksLast24h == 0
    ensures Clamp(100 - Deductions(q)) <= Clamp(100 - Deductions(p))
  {
  }

  /** Error rate 0.25, average 12000 ms, no task in 24 h and 6 error logs: score 0, critical, three alerts. */
  lemma WorkedExample(p: Performance)
    requires p.errorRate == 0.25 && p.averageProcessingTime == 12000.0
    requires p.tasksLast24h == 0 && p.errorLogs == 6
    ensures Clamp(100 - Deductions(p)) == 0
    ensures StatusOf(100 - Deductions(p)) == Critical
    ensures |Alerts(p)| == 3
  {
  }

  predicate HasAlert(alerts: seq<Alert>, kind: AlertKind)
  {
    exists i :: 0 <= i < |alerts| && alerts[i].kind == kind
  }

  function KindRank(kind: AlertKind): nat
  {
    match kind
    case ErrorRateAlert => 0
    case ProcessingTimeAlert => 1
    case InactivityAlert => 2
  }

  /**
   * At most three alerts, in the order error rate, processing time,
   * inactivity; each present iff its condition holds; only the error-rate
   * alert has severity high.
   */
  lemma AlertsSpec(p: Performance)
    ensures |Alerts(p)| <= 3
    ensures forall i, j :: 0 <= i < j < |Alerts(p)| ==> KindRank(Alerts(p)[i].kind) < KindRank(Alerts(p)[j].kind)
    ensures HasAlert(Alerts(p), ErrorRateAlert) <==> p.errorRate > 0.2
    ensures HasAlert(Alerts(p), ProcessingTimeAlert) <==> p.averageProcessingTime > 10000.0
    ensures HasAlert(Alerts(p), InactivityAlert) <==> p.tasksLast24h == 0
    ensures forall i :: 0 <= i < |Alerts(p)| ==> (Alerts(p)[i].severity == High <==> Alerts(p)[i].kind == ErrorRateAlert)
  {
    var a := Alerts(p);
    var e := if p.errorRate > 0.2 then 1 else 0;
    var s := if p.averageProcessingTime > 10000.0 then 1 else 0;
    if p.errorRate > 0.2 {
      assert a[0].kind == ErrorRateAlert;
    }
    if p.averageProcessingTime > 10000.0 {
      assert a[e].kind == ProcessingTimeAlert;
    }
    if p.tasksLast24h == 0 {
      assert a[e + s].kind == InactivityAlert;
    }
  }

  const ReviewErrors: string := "Review error logs and fix recurring issues"
  const OptimizeProcessing: string := "Optimize processing algorithms or increase resources"
  const CheckConfiguration: string := "Check agent configuration and input sources"
  const ConsiderRestart: string := "Consider agent restart or reconfiguration"

  /** `generateRecommendations(performance, healthScore)`, with the unclamped score. */
  function Recommendations(p: Performance, healthScore: int): seq<string>
  {
    (if p.errorRate > 0.1 then [ReviewErrors] else [])
    + (if p.averageProcessingTime > 5000.0 then [OptimizeProcessing] else [])
    + (if p.tasksLast24h == 0 then [CheckConfiguration] else [])
    + (if healthScore < 60 then [ConsiderRestart] else [])
  }

  /** The position of an advice string in the source's fixed order. */
  function AdviceRank(s: string): nat
  {
    if s == ReviewErrors then 0
    else if s == OptimizeProcessing then 1
    else if s == CheckConfiguration then 2
    else 3
  }

  /**
   * At most four entries in the fixed order, each present iff its condition
   * holds; the restart advice is present iff the status is critical.
   */
  lemma RecommendationsSpec(p: Performance)
    ensures var r := Recommendations(p, 100 - Deductions(p));
      && |r| <= 4
      && (forall i, j :: 0 <= i < j < |r| ==> AdviceRank(r[i]) < AdviceRank(r[j]))
      && (ReviewErrors in r <==> p.errorRate > 0.1)
      && (OptimizeProcessing in r <==> p.averageProcessingTime > 5000.0)
      && (CheckConfiguration in r <==> p.tasksLast24h == 0)
      && (ConsiderRestart in r <==> StatusOf(100 - Deductions(p)) == Critical)
  {
  }
}
