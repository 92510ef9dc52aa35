/**
 * The tenant report of api/performance-monitor.js (`getMonitoringReport`):
 * success totals over the last day's metrics, the five agents with the best
 * success rate, and the per-hour trend.
 */
module Fleet {
  import opened Wrappers
  import opened Domain
  import opened Lists
  import opened Collections
  import opened Sorting
  import opened Database
  import opened Storage
  import Health

  datatype SystemHealth = SystemHealth(
    overallSuccessRate: real,
    averageProcessingTime: real,
    totalOperations: nat,
    successfulOperations: nat,
    failedOperations: int)

  /** `calculateSystemHealth(metrics)`. */
  function SystemHealthOf(metrics: seq<Metric>): SystemHealth
  {
    var successful := Count(metrics, (m: Metric) => m.success);
    SystemHealth(Health.Rate(successful, |metrics|), Health.Average(Health.TotalTime(metrics), |metrics|),
                 |metrics|, successful, |metrics| - successful)
  }

  /**
   * The failed operations are exactly the metrics without success, the
   * successful and failed ones make up the total, and the rate and average
   * are 0 without metrics.
   */
  lemma SystemHealthSpec(metrics: seq<Metric>)
    ensures var h := SystemHealthOf(metrics);
      && h.totalOperations == |metrics|
      && h.successfulOperations + h.failedOperations == h.totalOperations
      && h.failedOperations == Count(metrics, (m: Metric) => !m.success)
      && 0.0 <= h.overallSuccessRate <= 1.0
      && (|metrics| == 0 ==> h.overallSuccessRate == 0.0 && h.averageProcessingTime == 0.0)
  {
    CountComplement(metrics, (m: Metric) => m.success, (m: Metric) => !m.success);
  }

  /** One entry of `agentStats`. */
  datatype AgentStat = AgentStat(agentId: string, totalOperations: nat, successfulOperations: nat, totalProcessingTime: real)

  /** An entry of `top_performing_agents`. */
  datatype TopAgent = TopAgent(
    agentId: string,
    totalOperations: nat,
    successfulOperations: nat,
    totalProcessingTime: real,
    successRate: real,
    averageProcessingTime: real,
    agentName: string)

  function Ids(metrics: seq<Metric>): (ids: seq<string>)
    ensures |ids| == |metrics| && forall i :: 0 <= i < |metrics| ==> ids[i] == metrics[i].agentId
  {
    seq(|metrics|, i requires 0 <= i < |metrics| => metrics[i].agentId)
  }

  function MetricsOf(metrics: seq<Metric>, id: string): seq<Metric>
  {
    Filter(metrics, (m: Metric) => m.agentId == id)
  }

  function OperationsOf(metrics: seq<Metric>, id: string): nat
  {
    Count(metrics, (m: Metric) => m.agentId == id)
  }

  function SuccessesOf(metrics: seq<Metric>, id: string): nat
  {
    Count(metrics, (m: Metric) => m.agentId == id && m.success)
  }

  /** The statistics of agent `id` over `metrics`. */
  function StatOf(metrics: seq<Metric>, id: string): AgentStat
  {
    AgentStat(id, OperationsOf(metrics, id), SuccessesOf(metrics, id), Health.TotalTime(MetricsOf(metrics, id)))
  }

  /** The update of one entry by one metric. */
  function Bump(s: AgentStat, m: Metric): AgentStat
  {
    s.(totalOperations := s.totalOperations + 1,
       successfulOperations := s.successfulOperations + (if m.success then 1 else 0),
       totalProcessingTime := s.totalProcessingTime + m.processingTime as real)
  }

  lemma StatStep(ms: seq<Metric>, x: Metric, id: string)
    ensures StatOf(ms + [x], id) == if x.agentId == id then Bump(StatOf(ms, id), x) else StatOf(ms, id)
  {
    if x.agentId == id {
      StatStepOwn(ms, x, id);
    } else {
      StatStepOther(ms, x, id);
    }
  }

  lemma StatStepOwn(ms: seq<Metric>, x: Metric, id: string)
    requires x.agentId == id
    ensures StatOf(ms + [x], id) == Bump(StatOf(ms, id), x)
  {
    var after, bumped := StatOf(ms + [x], id), Bump(StatOf(ms, id), x);
    assert after.totalOperations == bumped.totalOperations by {
      OperationsStep(ms, x, id);
    }
    assert after.successfulOperations == bumped.successfulOperations by {
      SuccessesStep(ms, x, id);
    }
    assert after.totalProcessingTime == bumped.totalProcessingTime by {
      TimeStep(ms, x, id);
    }
  }

  lemma StatStepOther(ms: seq<Metric>, x: Metric, id: string)
    requires x.agentId != id
    ensures StatOf(ms + [x], id) == StatOf(ms, id)
  {
    OperationsStep(ms, x, id);
    SuccessesStep(ms, x, id);
    TimeStep(ms, x, id);
  }

  lemma OperationsStep(ms: seq<Metric>, x: Metric, id: string)
    ensures OperationsOf(ms + [x], id) == OperationsOf(ms, id) + (if x.agentId == id then 1 else 0)
  {
    CountAppend(ms, x, (m: Metric) => m.agentId == id);
  }

  lemma SuccessesStep(ms: seq<Metric>, x: Metric, id: string)
    ensures SuccessesOf(ms + [x], id) == SuccessesOf(ms, id) + (if x.agentId == id && x.success then 1 else 0)
  {
    CountAppend(ms, x, (m: Metric) => m.agentId == id && m.success);
  }

  lemma TimeStep(ms: seq<Metric>, x: Metric, id: string)
    ensures Health.TotalTime(MetricsOf(ms + [x], id))
         == Health.TotalTime(MetricsOf(ms, id)) + (if x.agentId == id then x.processingTime as real else 0.0)
  {
    FilterAppend(ms, x, (m: Metric) => m.agentId == id);
    if x.agentId == id {
      Health.TotalTimeAppend(MetricsOf(ms, id), x);
    } else {
      assert MetricsOf(ms + [x], id) == MetricsOf(ms, id) + [];
      assert MetricsOf(ms, id) + [] == MetricsOf(ms, id);
    }
  }

  lemma {:induction false} StatAbsent(ms: seq<Metric>, id: string)
    requires forall i :: 0 <= i < |ms| ==> ms[i].agentId != id
    ensures MetricsOf(ms, id) == []
    ensures StatOf(ms, id) == AgentStat(id, 0, 0, 0.0)
  {
    if ms != [] {
      StatAbsent(ms[..|ms| - 1], id);
    }
  }

  lemma UniqueStep<T>(s: seq<T>, x: T)
    ensures Unique(s + [x]) == if x in Unique(s) then Unique(s) else Unique(s) + [x]
  {
    assert (s + [x])[..|s|] == s;
  }

  /** `order` and `stats` are what the `forEach` has built after the metrics `prefix`. */
  ghost predicate Collected(prefix: seq<Metric>, order: seq<string>, stats: map<string, AgentStat>)
  {
    && order == Unique(Ids(prefix))
    && (forall id :: id in stats <==> id in order)
    && (forall id :: id in stats ==> stats[id] == StatOf(prefix, id))
  }

  function Created(stats: map<string, AgentStat>, id: string): map<string, AgentStat>
  {
    if id in stats then stats else stats[id := AgentStat(id, 0, 0, 0.0)]
  }

  lemma AbsentId(prefix: seq<Metric>, id: string)
    requires id !in Unique(Ids(prefix))
    ensures StatOf(prefix, id) == AgentStat(id, 0, 0, 0.0)
  {
    UniqueElements(Ids(prefix));
    forall i | 0 <= i < |prefix|
      ensures prefix[i].agentId != id
    {
      assert Ids(prefix)[i] in Unique(Ids(prefix));
    }
    StatAbsent(prefix, id);
  }

  lemma CollectOrder(prefix: seq<Metric>, m: Metric, order: seq<string>)
    requires order == Unique(Ids(prefix))
    ensures (if m.agentId in order then order else order + [m.agentId]) == Unique(Ids(prefix + [m]))
  {
    assert Ids(prefix + [m]) == Ids(prefix) + [m.agentId];
    UniqueStep(Ids(prefix), m.agentId);
  }

  lemma CollectEntries(prefix: seq<Metric>, m: Metric, stats: map<string, AgentStat>, created: map<string, AgentStat>)
    requires forall id :: id in stats ==> stats[id] == StatOf(prefix, id)
    requires created == Created(stats, m.agentId)
    requires created[m.agentId] == StatOf(prefix, m.agentId)
    ensures var after := created[m.agentId := Bump(created[m.agentId], m)];
      forall id :: id in after ==> after[id] == StatOf(prefix + [m], id)
  {
    var after := created[m.agentId := Bump(created[m.agentId], m)];
    forall id | id in after
      ensures after[id] == StatOf(prefix + [m], id)
    {
      StatStep(prefix, m, id);
    }
  }

  lemma CollectStep(prefix: seq<Metric>, m: Metric, order: seq<string>, stats: map<string, AgentStat>)
    requires Collected(prefix, order, stats)
    ensures var created := Created(stats, m.agentId);
      Collected(prefix + [m], if m.agentId in stats then order else order + [m.agentId],
                created[m.agentId := Bump(created[m.agentId], m)])
  {
    CollectOrder(prefix, m, order);
    if m.agentId !in stats {
      AbsentId(prefix, m.agentId);
    }
    CollectEntries(prefix, m, stats, Created(stats, m.agentId));
  }

  /**
   * The `forEach` of `getTopPerformingAgents`: `stats` gets an entry per
   * agent id, created at the id's first metric; `order` is the insertion
   * order of the entries, which `Object.values` follows.
   */
  method CollectStats(metrics: seq<Metric>) returns (order: seq<string>, stats: map<string, AgentStat>)
    ensures order == Unique(Ids(metrics))
    ensures forall id :: id in stats <==> id in order
    ensures forall id :: id in stats ==> stats[id] == StatOf(metrics, id)
  {
    order, stats := [], map[];
    var i := 0;
    while i < |metrics|
      invariant 0 <= i <= |metrics|
      invariant Collected(metrics[..i], order, stats)
    {
      var m := metrics[i];
      assert metrics[..i + 1] == metrics[..i] + [m];
      CollectStep(metrics[..i], m, order, stats);
      if m.agentId !in stats {
        stats := stats[m.agentId := AgentStat(m.agentId, 0, 0, 0.0)];
        order := order + [m.agentId];
      }
      stats := stats[m.agentId := Bump(stats[m.agentId], m)];
      i := i + 1;
    }
    assert metrics[..i] == metrics;
  }

  /** `agents.find(a => a.id === id)?.name || 'Unknown'`. */
  function NameOf(agents: seq<Agent>, id: string): (name: string)
    ensures name != ""
    ensures (forall i :: 0 <= i < |agents| ==> agents[i].id != id) ==> name == "Unknown"
    ensures name == "Unknown" || exists i :: 0 <= i < |agents| && agents[i].id == id && agents[i].name == name
                                           && forall j :: 0 <= j < i ==> agents[j].id != id
  {
    if agents == [] then "Unknown"
    else if agents[0].id == id then (if agents[0].name != "" then agents[0].name else "Unknown")
    else
      var rest := NameOf(agents[1..], id);
      assert rest != "Unknown" ==> exists i :: 1 <= i < |agents| && agents[i].id == id && agents[i].name == rest
                                              && forall j :: 1 <= j < i ==> agents[j].id != id;
      rest
  }

  function Row(s: AgentStat, agents: seq<Agent>): TopAgent
  {
    TopAgent(s.agentId, s.totalOperations, s.successfulOperations, s.totalProcessingTime,
             Health.Rate(s.successfulOperations, s.totalOperations),
             Health.Average(s.totalProcessingTime, s.totalOperations), NameOf(agents, s.agentId))
  }

  /** The entries of `agentStats` in insertion order, each with its rate, average and name. */
  function Rows(metrics: seq<Metric>, agents: seq<Agent>): (rows: seq<TopAgent>)
    ensures |rows| == |Unique(Ids(metrics))|
  {
    var order := Unique(Ids(metrics));
    seq(|order|, i requires 0 <= i < |order| => Row(StatOf(metrics, order[i]), agents))
  }

  function SuccessRate(t: TopAgent): real
  {
    t.successRate
  }

  /** `getTopPerformingAgents(metrics, agents)`. */
  function TopAgents(metrics: seq<Metric>, agents: seq<Agent>): seq<TopAgent>
  {
    Take(SortDesc(Rows(metrics, agents), SuccessRate), 5)
  }

  method TopPerformingAgents(metrics: seq<Metric>, agents: seq<Agent>) returns (top: seq<TopAgent>)
    ensures top == TopAgents(metrics, agents)
  {
    var order, stats := CollectStats(metrics);
    var rows := seq(|order|, i requires 0 <= i < |order| => Row(stats[order[i]], agents));
    assert rows == Rows(metrics, agents);
    top := Take(SortDesc(rows, SuccessRate), 5);
  }

  /** Every entry stands for an agent that has metrics: at least one operation, a rate in [0, 1]. */
  lemma {:induction false} RowsBounds(metrics: seq<Metric>, agents: seq<Agent>)
    ensures forall r :: r in Rows(metrics, agents) ==>
      r.totalOperations >= 1 && r.successfulOperations <= r.totalOperations && 0.0 <= r.successRate <= 1.0
      && r.agentName != ""
  {
    var order := Unique(Ids(metrics));
    var rows := Rows(metrics, agents);
    forall r | r in rows
      ensures r.totalOperations >= 1 && r.successfulOperations <= r.totalOperations && 0.0 <= r.successRate <= 1.0
    {
      var i :| 0 <= i < |rows| && rows[i] == r;
      var id := order[i];
      assert id in Ids(metrics);
      var k :| 0 <= k < |metrics| && Ids(metrics)[k] == id;
      CountPositive(metrics, (m: Metric) => m.agentId == id, k);
      CountMonotone(metrics, (m: Metric) => m.agentId == id && m.success, (m: Metric) => m.agentId == id);
    }
  }

  /**
   * At most five agents, in non-increasing success rate, each taken from the
   * statistics rows; rows with equal rates keep the order of their agents'
   * first metrics.
   */
  lemma TopAgentsSpec(metrics: seq<Metric>, agents: seq<Agent>, rate: real)
    ensures |TopAgents(metrics, agents)| == (if |Unique(Ids(metrics))| < 5 then |Unique(Ids(metrics))| else 5)
    ensures SortedDesc(TopAgents(metrics, agents), SuccessRate)
    ensures forall t :: t in TopAgents(metrics, agents) ==> t in Rows(metrics, agents)
    ensures Filter(SortDesc(Rows(metrics, agents), SuccessRate), (t: TopAgent) => t.successRate == rate)
         == Filter(Rows(metrics, agents), (t: TopAgent) => t.successRate == rate)
  {
    var rows := Rows(metrics, agents);
    var sorted := SortDesc(rows, SuccessRate);
    var top := TopAgents(metrics, agents);
    assert top == sorted[..|top|];
    assert SortedDesc(top, SuccessRate) by {
      SortDescSorted(rows, SuccessRate);
    }
    forall t | t in top
      ensures t in rows
    {
      SortDescPermutes(rows, SuccessRate);
      assert t in multiset(sorted);
    }
    SortDescStable(rows, SuccessRate, (t: TopAgent) => t.successRate == rate);
  }

  /** The counts of one hour's bucket of `hourlyMetrics`. */
  datatype Bucket = Bucket(total: nat, successful: nat)

  /** An entry of `performance_trends`. */
  datatype Trend = Trend(hour: int, successRate: real, totalOperations: nat)

  /** The bucket of hour `h`, where `hourOf` is `new Date(t).getHours()` in the server's time zone. */
  function AtHour(metrics: seq<Metric>, hourOf: int -> int, h: int): Bucket
  {
    Bucket(Count(metrics, (m: Metric) => hourOf(m.createdAt) == h),
           Count(metrics, (m: Metric) => hourOf(m.createdAt) == h && m.success))
  }

  function TrendOf(h: int, b: Bucket): Trend
  {
    Trend(h, Health.Rate(b.successful, b.total), b.total)
  }

  /** The trend entries of the hours below `h`, in ascending hour order. */
  function TrendsBelow(metrics: seq<Metric>, hourOf: int -> int, h: nat): seq<Trend>
  {
    if h == 0 then []
    else TrendsBelow(metrics, hourOf, h - 1)
         + (if AtHour(metrics, hourOf, h - 1).total > 0 then [TrendOf(h - 1, AtHour(metrics, hourOf, h - 1))] else [])
  }

  /** `calculatePerformanceTrends(metrics)`: `Object.entries` lists the integer keys 0..23 in ascending order. */
  function Trends(metrics: seq<Metric>, hourOf: int -> int): seq<Trend>
  {
    TrendsBelow(metrics, hourOf, 24)
  }

  lemma BucketStep(ms: seq<Metric>, x: Metric, hourOf: int -> int, h: int)
    ensures AtHour(ms + [x], hourOf, h) ==
      if hourOf(x.createdAt) == h then Bucket(AtHour(ms, hourOf, h).total + 1, AtHour(ms, hourOf, h).successful + (if x.success then 1 else 0))
      else AtHour(ms, hourOf, h)
  {
    CountAppend(ms, x, (m: Metric) => hourOf(m.createdAt) == h);
    CountAppend(ms, x, (m: Metric) => hourOf(m.createdAt) == h && m.success);
  }

  lemma BucketEmpty(ms: seq<Metric>, hourOf: int -> int, h: int)
    requires AtHour(ms, hourOf, h).total == 0
    ensures AtHour(ms, hourOf, h) == Bucket(0, 0)
  {
    CountMonotone(ms, (m: Metric) => hourOf(m.createdAt) == h && m.success, (m: Metric) => hourOf(m.createdAt) == h);
  }

  /** `hourly` is what the `forEach` has built after the metrics `prefix`. */
  ghost predicate Bucketed(prefix: seq<Metric>, hourOf: int -> int, hourly: map<int, Bucket>)
  {
    && (forall h :: h in hourly <==> AtHour(prefix, hourOf, h).total > 0)
    && (forall h :: h in hourly ==> hourly[h] == AtHour(prefix, hourOf, h))
  }

  function Opened(hourly: map<int, Bucket>, h: int): map<int, Bucket>
  {
    if h in hourly then hourly else hourly[h := Bucket(0, 0)]
  }

  function Counted(b: Bucket, m: Metric): Bucket
  {
    Bucket(b.total + 1, b.successful + (if m.success then 1 else 0))
  }

  lemma BucketedStep(prefix: seq<Metric>, m: Metric, hourOf: int -> int, hourly: map<int, Bucket>)
    requires Bucketed(prefix, hourOf, hourly)
    ensures var hour := hourOf(m.createdAt);
      var withHour := Opened(hourly, hour);
      Bucketed(prefix + [m], hourOf, withHour[hour := Counted(withHour[hour], m)])
  {
    var hour := hourOf(m.createdAt);
    if hour !in hourly {
      BucketEmpty(prefix, hourOf, hour);
    }
    var withHour := Opened(hourly, hour);
    var after := withHour[hour := Counted(withHour[hour], m)];
    forall h
      ensures h in after <==> AtHour(prefix + [m], hourOf, h).total > 0
      ensures h in after ==> after[h] == AtHour(prefix + [m], hourOf, h)
    {
      BucketStep(prefix, m, hourOf, h);
    }
  }

  /** The `forEach` of `calculatePerformanceTrends`: one bucket per hour that has a metric. */
  method BucketMetrics(metrics: seq<Metric>, hourOf: int -> int) returns (hourly: map<int, Bucket>)
    ensures Bucketed(metrics, hourOf, hourly)
  {
    hourly := map[];
    var i := 0;
    while i < |metrics|
      invariant 0 <= i <= |metrics|
      invariant Bucketed(metrics[..i], hourOf, hourly)
    {
      var m := metrics[i];
      var hour := hourOf(m.createdAt);
      assert metrics[..i + 1] == metrics[..i] + [m];
      BucketedStep(metrics[..i], m, hourOf, hourly);
      if hour !in hourly {
        hourly := hourly[hour := Bucket(0, 0)];
      }
      hourly := hourly[hour := Counted(hourly[hour], m)];
      i := i + 1;
    }
    assert metrics[..i] == metrics;
  }

  /** `calculatePerformanceTrends`: the buckets, then one entry per bucket in ascending hour order. */
  method PerformanceTrends(metrics: seq<Metric>, hourOf: int -> int) returns (trends: seq<Trend>)
    ensures trends == Trends(metrics, hourOf)
  {
    var hourly := BucketMetrics(metrics, hourOf);
    trends := [];
    var h := 0;
    while h < 24
      invariant 0 <= h <= 24
      invariant trends == TrendsBelow(metrics, hourOf, h)
    {
      assert h in hourly <==> AtHour(metrics, hourOf, h).total > 0;
      if h in hourly {
        trends := trends + [TrendOf(h, hourly[h])];
      }
      h := h + 1;
    }
  }

  function TotalOperations(trends: seq<Trend>): nat
  {
    if trends == [] then 0 else TotalOperations(trends[..|trends| - 1]) + trends[|trends| - 1].totalOperations
  }

  lemma TotalOperationsAppend(trends: seq<Trend>, extra: seq<Trend>)
    requires |extra| <= 1
    ensures TotalOperations(trends + extra) == TotalOperations(trends) + (if extra == [] then 0 else extra[0].totalOperations)
  {
    if extra != [] {
      assert (trends + extra)[..|trends|] == trends;
    } else {
      assert trends + extra == trends;
    }
  }

  lemma {:induction false} TotalBelow(metrics: seq<Metric>, hourOf: int -> int, h: nat)
    ensures TotalOperations(TrendsBelow(metrics, hourOf, h)) == Count(metrics, (m: Metric) => 0 <= hourOf(m.createdAt) < h)
  {
    if h == 0 {
      CountNone(metrics, (m: Metric) => 0 <= hourOf(m.createdAt) < h);
    } else {
      TotalBelow(metrics, hourOf, h - 1);
      var extra := if AtHour(metrics, hourOf, h - 1).total > 0 then [TrendOf(h - 1, AtHour(metrics, hourOf, h - 1))] else [];
      TotalOperationsAppend(TrendsBelow(metrics, hourOf, h - 1), extra);
      CountSplit(metrics, (m: Metric) => 0 <= hourOf(m.createdAt) < h, (m: Metric) => 0 <= hourOf(m.createdAt) < h - 1,
                 (m: Metric) => hourOf(m.createdAt) == h - 1);
    }
  }

  predicate HasHour(trends: seq<Trend>, h: int)
  {
    exists i :: 0 <= i < |trends| && trends[i].hour == h
  }

  function Extra(metrics: seq<Metric>, hourOf: int -> int, h: int): seq<Trend>
  {
    if AtHour(metrics, hourOf, h).total > 0 then [TrendOf(h, AtHour(metrics, hourOf, h))] else []
  }

  lemma {:induction false} TrendsBelowOrdered(metrics: seq<Metric>, hourOf: int -> int, h: nat)
    ensures forall i, j :: 0 <= i < j < |TrendsBelow(metrics, hourOf, h)| ==>
      TrendsBelow(metrics, hourOf, h)[i].hour < TrendsBelow(metrics, hourOf, h)[j].hour
    ensures forall i :: 0 <= i < |TrendsBelow(metrics, hourOf, h)| ==> 0 <= TrendsBelow(metrics, hourOf, h)[i].hour < h
  {
    if h > 0 {
      TrendsBelowOrdered(metrics, hourOf, h - 1);
      var prev := TrendsBelow(metrics, hourOf, h - 1);
      var ts := TrendsBelow(metrics, hourOf, h);
      assert ts == prev + Extra(metrics, hourOf, h - 1);
      forall i | 0 <= i < |ts|
        ensures 0 <= ts[i].hour < h
      {
        if i < |prev| {
          assert ts[i] == prev[i];
        } else {
          assert ts[i] == Extra(metrics, hourOf, h - 1)[0];
        }
      }
      forall i, j | 0 <= i < j < |ts|
        ensures ts[i].hour < ts[j].hour
      {
        assert ts[i] == prev[i];
        if j < |prev| {
          assert ts[j] == prev[j];
        } else {
          assert ts[j] == Extra(metrics, hourOf, h - 1)[0];
        }
      }
    }
  }

  lemma {:induction false} TrendsBelowEntries(metrics: seq<Metric>, hourOf: int -> int, h: nat)
    ensures forall i :: 0 <= i < |TrendsBelow(metrics, hourOf, h)| ==>
      var t := TrendsBelow(metrics, hourOf, h)[i];
      t == TrendOf(t.hour, AtHour(metrics, hourOf, t.hour)) && t.totalOperations >= 1
  {
    if h > 0 {
      TrendsBelowEntries(metrics, hourOf, h - 1);
      var prev := TrendsBelow(metrics, hourOf, h - 1);
      var ts := TrendsBelow(metrics, hourOf, h);
      assert ts == prev + Extra(metrics, hourOf, h - 1);
      forall i | 0 <= i < |ts|
        ensures ts[i] == TrendOf(ts[i].hour, AtHour(metrics, hourOf, ts[i].hour)) && ts[i].totalOperations >= 1
      {
        if i < |prev| {
          assert ts[i] == prev[i];
        } else {
          assert ts[i] == Extra(metrics, hourOf, h - 1)[0];
        }
      }
    }
  }

  lemma {:induction false} TrendsBelowHours(metrics: seq<Metric>, hourOf: int -> int, h: nat, k: int)
    ensures HasHour(TrendsBelow(metrics, hourOf, h), k) <==> 0 <= k < h && AtHour(metrics, hourOf, k).total > 0
  {
    if h > 0 {
      TrendsBelowHours(metrics, hourOf, h - 1, k);
      TrendsBelowOrdered(metrics, hourOf, h - 1);
      var ts := TrendsBelow(metrics, hourOf, h);
      var prev := TrendsBelow(metrics, hourOf, h - 1);
      if HasHour(prev, k) {
        var i :| 0 <= i < |prev| && prev[i].hour == k;
        assert ts[i].hour == k;
      }
      if HasHour(ts, k) {
        var i :| 0 <= i < |ts| && ts[i].hour == k;
        if i < |prev| {
          assert prev[i].hour == k;
        }
      }
      if k == h - 1 && AtHour(metrics, hourOf, k).total > 0 {
        assert ts[|prev|].hour == k;
      }
    }
  }

  /**
   * One entry per hour that has at least one metric, in ascending hour
   * order, each with its bucket's counts; when every hour lies in 0..23 the
   * entries' operations add up to the number of metrics.
   */
  lemma TrendsSpec(metrics: seq<Metric>, hourOf: int -> int)
    requires forall t :: 0 <= hourOf(t) < 24
    ensures forall i, j :: 0 <= i < j < |Trends(metrics, hourOf)| ==>
      Trends(metrics, hourOf)[i].hour < Trends(metrics, hourOf)[j].hour
    ensures forall i :: 0 <= i < |Trends(metrics, hourOf)| ==>
      var t := Trends(metrics, hourOf)[i];
      t == TrendOf(t.hour, AtHour(metrics, hourOf, t.hour)) && t.totalOperations >= 1
    ensures forall k :: HasHour(Trends(metrics, hourOf), k) <==> 0 <= k < 24 && AtHour(metrics, hourOf, k).total > 0
    ensures TotalOperations(Trends(metrics, hourOf)) == |metrics|
  {
    TrendsBelowOrdered(metrics, hourOf, 24);
    TrendsBelowEntries(metrics, hourOf, 24);
    forall k
      ensures HasHour(Trends(metrics, hourOf), k) <==> 0 <= k < 24 && AtHour(metrics, hourOf, k).total > 0
    {
      TrendsBelowHours(metrics, hourOf, 24, k);
    }
    assert TotalOperations(Trends(metrics, hourOf)) == |metrics| by {
      TotalBelow(metrics, hourOf, 24);
      CountAll(metrics, (m: Metric) => 0 <= hourOf(m.createdAt) < 24);
    }
  }

  /** The report's `data`. */
  datatype Report = Report(
    tenantId: string,
    agentsCount: nat,
    activeAgents: nat,
    systemHealth: SystemHealth,
    topPerformingAgents: seq<TopAgent>,
    performanceTrends: seq<Trend>,
    generatedAt: int)

  /** `getMonitoringReport` for tenant `tenantId` at time `now`. */
  function MonitoringReportOf(db: Db, tenantId: string, now: int, hourOf: int -> int): Reply<Report>
  {
    if tenantId == "" then Failure(400, "tenantId parameter is required", None)
    else
      var agents := GetAgents(db, tenantId, "", "");
      var metrics := GetMetrics(db, "", tenantId, Some(now - Health.DayMs));
      Success(200, Report(tenantId, |agents|, Count(agents, (a: Agent) => a.status == "active"), SystemHealthOf(metrics),
                          TopAgents(metrics, agents), Trends(metrics, hourOf), now))
  }

  method MonitoringReport(store: Store, tenantId: string, now: int, hourOf: int -> int) returns (reply: Reply<Report>)
    ensures reply == MonitoringReportOf(store.State(), tenantId, now, hourOf)
  {
    if tenantId == "" {
      return Failure(400, "tenantId parameter is required", None);
    }
    var db := store.State();
    var agents := GetAgents(db, tenantId, "", "");
    var metrics := GetMetrics(db, "", tenantId, Some(now - Health.DayMs));
    var top := TopPerformingAgents(metrics, agents);
    var trends := PerformanceTrends(metrics, hourOf);
    reply := Success(200, Report(tenantId, |agents|, Count(agents, (a: Agent) => a.status == "active"),
                                 SystemHealthOf(metrics), top, trends, now));
  }

  /** The report counts only the tenant's agents, and the metrics of the last day. */
  lemma ReportScope(db: Db, tenantId: string, now: int, hourOf: int -> int)
    requires tenantId != ""
    ensures var r := MonitoringReportOf(db, tenantId, now, hourOf);
      && r.Success?
      && r.data.activeAgents <= r.data.agentsCount == Count(db.agents, (a: Agent) => Matches(tenantId, a.tenantId) && Matches("", a.status) && Matches("", a.kind))
      && r.data.systemHealth.totalOperations == |GetMetrics(db, "", tenantId, Some(now - Health.DayMs))|
  {
    FilterCount(db.agents, (a: Agent) => Matches(tenantId, a.tenantId) && Matches("", a.status) && Matches("", a.kind));
  }
}
