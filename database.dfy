/**
 * The four tables of api/utils/database.js as one value, the writes its
 * classes perform, and the read queries the handlers issue.
 */
module Database {
  import opened Wrappers
  import opened Json
  import opened Domain
  import opened Lists

  /** The tables, and the counters that stand for the generated row ids. */
  datatype Db = Db(
    agents: seq<Agent>,
    tasks: seq<Task>,
    metrics: seq<Metric>,
    logs: seq<LogEntry>,
    nextTask: nat,
    nextAgent: nat)

  /** The two task updates the handlers issue: completion with output, and failure with a message. */
  datatype TaskPatch =
    | MarkCompleted(output: Output, completedAt: int, meta: map<string, Value>)
    | MarkFailed(message: string, completedAt: int)

  /** The columns of an agent that an update body supplies; `None` leaves a column as it was. */
  datatype AgentPatch = AgentPatch(
    name: Option<string>,
    kind: Option<string>,
    description: Option<string>,
    status: Option<string>,
    version: Option<string>,
    endpointUrl: Option<string>,
    config: Option<map<string, Value>>,
    tenantId: Option<string>)

  datatype Write =
    | NewTask(task: Task)
    | TaskUpdate(id: nat, patch: TaskPatch)
    | NewMetric(metric: Metric)
    | NewLog(entry: LogEntry)
    | NewAgent(agent: Agent)
    | AgentUpdate(agentId: string, changes: AgentPatch)
    | AgentRemoval(agentId: string)

  /** A task row after `update({...patch})`: the patched columns change, the others stay. */
  function Patched(t: Task, p: TaskPatch): (r: Task)
    ensures r.id == t.id && r.tenantId == t.tenantId && r.agentId == t.agentId
    ensures r.input == t.input && r.createdAt == t.createdAt
    ensures r.status == (if p.MarkCompleted? then Completed else Failed)
  {
    match p
    case MarkCompleted(o, at, m) => t.(status := Completed, output := Some(o), completedAt := Some(at), meta := m)
    case MarkFailed(msg, at) => t.(status := Failed, errorMessage := Some(msg), completedAt := Some(at))
  }

  function Or<T>(o: Option<T>, otherwise: T): T
  {
    if o.Some? then o.value else otherwise
  }

  function AgentPatched(a: Agent, p: AgentPatch): Agent
  {
    a.(name := Or(p.name, a.name), kind := Or(p.kind, a.kind), description := Or(p.description, a.description),
       status := Or(p.status, a.status), version := Or(p.version, a.version),
       endpointUrl := Or(p.endpointUrl, a.endpointUrl), config := Or(p.config, a.config),
       tenantId := Or(p.tenantId, a.tenantId))
  }

  /** The effect of one successful write. Updates and deletes act on every row with the id. */
  function Apply(db: Db, w: Write): Db
  {
    match w
    case NewTask(t) => db.(tasks := db.tasks + [t], nextTask := db.nextTask + 1)
    case TaskUpdate(id, p) =>
      db.(tasks := seq(|db.tasks|, i requires 0 <= i < |db.tasks| =>
        if db.tasks[i].id == id then Patched(db.tasks[i], p) else db.tasks[i]))
    case NewMetric(m) => db.(metrics := db.metrics + [m])
    case NewLog(e) => db.(logs := db.logs + [e])
    case NewAgent(a) => db.(agents := db.agents + [a], nextAgent := db.nextAgent + 1)
    case AgentUpdate(id, p) =>
      db.(agents := seq(|db.agents|, i requires 0 <= i < |db.agents| =>
        if db.agents[i].id == id then AgentPatched(db.agents[i], p) else db.agents[i]))
    case AgentRemoval(id) => db.(agents := Filter(db.agents, (a: Agent) => a.id != id))
  }

  /** The effect of writes applied in order. */
  function ApplyAll(db: Db, ws: seq<Write>): Db
  {
    if ws == [] then db else Apply(ApplyAll(db, ws[..|ws| - 1]), ws[|ws| - 1])
  }

  lemma {:induction false} ApplyAllConcat(db: Db, a: seq<Write>, b: seq<Write>)
    ensures ApplyAll(db, a + b) == ApplyAll(ApplyAll(db, a), b)
  {
    if b != [] {
      assert (a + b)[..|a + b| - 1] == a + b[..|b| - 1];
      ApplyAllConcat(db, a, b[..|b| - 1]);
    } else {
      assert a + b == a;
    }
  }

  /** Logs and metrics are append-only: writes never remove or change an existing row. */
  lemma {:induction false} AppendOnly(db: Db, ws: seq<Write>)
    ensures db.metrics <= ApplyAll(db, ws).metrics
    ensures db.logs <= ApplyAll(db, ws).logs
  {
    if ws != [] {
      AppendOnly(db, ws[..|ws| - 1]);
    }
  }

  /** An empty string is a filter the caller did not supply (`if (filters.x)`). */
  predicate Matches(filter: string, column: string)
  {
    filter == "" || column == filter
  }

  /** `getTasks({agent_id, tenant_id})`. */
  function GetTasks(db: Db, agentId: string, tenantId: string): (r: seq<Task>)
    ensures forall i :: 0 <= i < |r| ==> Matches(agentId, r[i].agentId) && Matches(tenantId, r[i].tenantId)
    ensures forall t :: t in r <==> t in db.tasks && Matches(agentId, t.agentId) && Matches(tenantId, t.tenantId)
  {
    var p := (t: Task) => Matches(agentId, t.agentId) && Matches(tenantId, t.tenantId);
    assert forall t :: t in Filter(db.tasks, p) <==> t in db.tasks && p(t) by {
      forall t { FilterMembers(db.tasks, p, t); }
    }
    Filter(db.tasks, p)
  }

  /** `getMetrics({agent_id, tenant_id, from_date})`: `created_at >= from_date` when a date is given. */
  function GetMetrics(db: Db, agentId: string, tenantId: string, from: Option<int>): (r: seq<Metric>)
    ensures forall i :: 0 <= i < |r| ==> Matches(agentId, r[i].agentId) && Matches(tenantId, r[i].tenantId)
    ensures from.Some? ==> forall i :: 0 <= i < |r| ==> r[i].createdAt >= from.value
    ensures forall m :: m in r <==> m in db.metrics && Matches(agentId, m.agentId) && Matches(tenantId, m.tenantId)
                                    && (from.None? || m.createdAt >= from.value)
  {
    var p := (m: Metric) => Matches(agentId, m.agentId) && Matches(tenantId, m.tenantId)
                            && (from.None? || m.createdAt >= from.value);
    assert forall m :: m in Filter(db.metrics, p) <==> m in db.metrics && p(m) by {
      forall m { FilterMembers(db.metrics, p, m); }
    }
    Filter(db.metrics, p)
  }

  /** `getLogs({agent_id, tenant_id})`, in table order. */
  function GetLogs(db: Db, agentId: string, tenantId: string): (r: seq<LogEntry>)
    ensures forall i :: 0 <= i < |r| ==> Matches(agentId, r[i].agentId) && Matches(tenantId, r[i].tenantId)
    ensures forall e :: e in r <==> e in db.logs && Matches(agentId, e.agentId) && Matches(tenantId, e.tenantId)
  {
    var p := (e: LogEntry) => Matches(agentId, e.agentId) && Matches(tenantId, e.tenantId);
    assert forall e :: e in Filter(db.logs, p) <==> e in db.logs && p(e) by {
      forall e { FilterMembers(db.logs, p, e); }
    }
    Filter(db.logs, p)
  }

  /** `getAgents({tenant_id, status, type})`. */
  function GetAgents(db: Db, tenantId: string, status: string, kind: string): (r: seq<Agent>)
    ensures forall i :: 0 <= i < |r| ==> Matches(tenantId, r[i].tenantId) && Matches(status, r[i].status) && Matches(kind, r[i].kind)
    ensures forall a :: a in r <==> a in db.agents && Matches(tenantId, a.tenantId) && Matches(status, a.status) && Matches(kind, a.kind)
  {
    var p := (a: Agent) => Matches(tenantId, a.tenantId) && Matches(status, a.status) && Matches(kind, a.kind);
    assert forall a :: a in Filter(db.agents, p) <==> a in db.agents && p(a) by {
      forall a { FilterMembers(db.agents, p, a); }
    }
    Filter(db.agents, p)
  }

  /** PostgREST's error for `.single()` on a result that is not exactly one row. */
  const SingleRowError: string := "JSON object requested, multiple (or no) rows returned"

  /** `getAgentById(id)`: `.single()` succeeds only when exactly one row has the id. */
  function GetAgentById(db: Db, id: string): (r: Result<Agent>)
    ensures r.Ok? <==> Count(db.agents, (a: Agent) => a.id == id) == 1
    ensures r.Ok? ==> r.value in db.agents && r.value.id == id
    ensures r.Err? ==> r.message == SingleRowError
  {
    var rows := Filter(db.agents, (a: Agent) => a.id == id);
    FilterCount(db.agents, (a: Agent) => a.id == id);
    if |rows| == 1 then
      FilterMembers(db.agents, (a: Agent) => a.id == id, rows[0]);
      Ok(rows[0])
    else Err(SingleRowError)
  }
}
