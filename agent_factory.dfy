/**
 * api/agent-factory.js: creating an agent (validation, the config merged
 * over its type's defaults, the default columns, one creation log), listing
 * a tenant's agents (filters, page slice, statistics), and the ownership
 * gates of updating and deleting one.
 */
module AgentFactory {
  import opened Wrappers
  import opened Json
  import opened Strings
  import opened Domain
  import opened Lists
  import opened Database
  import opened Storage
  import opened Tasks

  const AgentTypes: seq<string> := ["sentiment", "recommendation", "performance"]

  /** `DEFAULT_CONFIGS[type]` for the three agent types. */
  function DefaultConfig(kind: string): map<string, Value>
  {
    if kind == "sentiment" then
      map["model" := Str("cardiffnlp/twitter-roberta-base-sentiment-latest"), "batch_size" := Num(10.0),
          "confidence_threshold" := Num(0.7)]
    else if kind == "recommendation" then
      map["model" := Str("sentence-transformers/all-MiniLM-L6-v2"), "similarity_threshold" := Num(0.7),
          "max_recommendations" := Num(10.0)]
    else if kind == "performance" then
      map["check_interval" := Num(300.0), "alert_threshold" := Num(0.8), "metrics_retention" := Num(30.0)]
    else map[]
  }

  /** `{...defaults, ...config}`: every supplied key wins, every default not supplied stays. */
  function MergeConfig(defaults: map<string, Value>, config: map<string, Value>): (r: map<string, Value>)
    ensures r.Keys == defaults.Keys + config.Keys
    ensures forall k :: k in config ==> r[k] == config[k]
    ensures forall k :: k in defaults && k !in config ==> r[k] == defaults[k]
  {
    defaults + config
  }

  /** The body of a creation: `name`, `type`, `description` ("" when missing or empty) and `config` when supplied. */
  datatype CreateRequest = CreateRequest(name: string, kind: string, description: string, config: Option<Value>)

  const NameAndTypeRequired: string := "Name and type are required"
  const InvalidType: string := "Invalid agent type. Must be: sentiment, recommendation, or performance"
  const CreateFailed: string := "Failed to create agent"

  function ValidateCreate(req: CreateRequest): Outcome
  {
    if req.name == "" || req.kind == "" then Fail(NameAndTypeRequired)
    else if req.kind !in AgentTypes then Fail(InvalidType)
    else Pass
  }

  /** `config = {}` spread over the type's defaults. */
  function ConfigOf(req: CreateRequest): map<string, Value>
  {
    MergeConfig(DefaultConfig(req.kind), if req.config.Some? then Spread(req.config.value) else map[])
  }

  /** The row `createAgent` inserts with id `id` for tenant `tenantId`, created by `userId`. */
  function AgentRow(id: string, tenantId: string, userId: string, req: CreateRequest, now: int): Agent
  {
    Agent(id, tenantId, req.name, req.kind,
          if req.description != "" then req.description else req.kind + " analysis agent",
          "inactive", "1.0.0", "/api/" + req.kind + "-agent", ConfigOf(req), userId, now)
  }

  function CreationLog(agent: Agent, now: int): LogEntry
  {
    LogEntry(agent.tenantId, agent.id, Info, Text("Agent created: " + agent.name),
             map["type" := Str(agent.kind), "config" := Obj(agent.config)], now)
  }

  /** Two awaited writes in order: the first failure ends them and is thrown. */
  function TwoWrites(first: Write, second: Write, f: Fault): Run
  {
    if FaultAt(f, 0).Some? then Run([], FaultAt(f, 0), 1)
    else if FaultAt(f, 1).Some? then Run([first], FaultAt(f, 1), 2)
    else Run([first, second], None, 2)
  }

  /** The same as running the two writes as steps of a handler. */
  lemma TwoWritesExec(first: Write, second: Write, f: Fault)
    ensures TwoWrites(first, second, f) == Exec([Do(first), Do(second)], 0, f)
  {
    var steps := [Do(first), Do(second)];
    assert steps[1..] == [Do(second)];
    assert [Do(second)][1..] == [];
    assert Exec([Do(second)], 1, f) == if FaultAt(f, 1).Some? then Run([], FaultAt(f, 1), 2) else Run([second], None, 2);
  }

  /**
   * What `createAgent` does for tenant `tenantId` and user `userId` at time
   * `now` under the write faults `f`: the new agent's id is the store's
   * next agent number.
   */
  function CreatePlan(db: Db, tenantId: string, userId: string, req: CreateRequest, now: int, f: Fault): Handled<Agent>
  {
    var check := ValidateCreate(req);
    if check.Fail? then Handled(Run([], None, 0), Failure(400, check.message, None))
    else
      var agent := AgentRow(NatToString(db.nextAgent), tenantId, userId, req, now);
      var run := TwoWrites(NewAgent(agent), NewLog(CreationLog(agent, now)), f);
      Handled(run, if run.error.None? then Success(201, agent) else Failure(500, CreateFailed, run.error))
  }

  /** `createAgent`: validation, the agent insert, then the creation log. */
  method CreateAgent(store: Store, tenantId: string, userId: string, req: CreateRequest, now: int, f: Fault)
    returns (reply: Reply<Agent>)
    modifies store
    ensures var h := CreatePlan(old(store.State()), tenantId, userId, req, now, f);
      reply == h.reply && store.State() == ApplyAll(old(store.State()), h.run.done)
  {
    var check := ValidateCreate(req);
    if check.Fail? {
      return Failure(400, check.message, None);
    }
    ghost var db := store.State();
    var agent := AgentRow(NatToString(store.nextAgent), tenantId, userId, req, now);
    var error := store.CreateAgent(agent, FaultAt(f, 0));
    if error.Some? {
      return Failure(500, CreateFailed, error);
    }
    assert ApplyAll(db, [NewAgent(agent)]) == store.State() by {
      assert [NewAgent(agent)][..0] == [];
    }
    error := store.InsertLog(CreationLog(agent, now), FaultAt(f, 1));
    if error.Some? {
      return Failure(500, CreateFailed, error);
    }
    assert [NewAgent(agent), NewLog(CreationLog(agent, now))][..1] == [NewAgent(agent)];
    return Success(201, agent);
  }

  /**
   * A body without `name` or `type`, or with a type other than the three
   * agent types, is answered 400 and writes nothing.
   */
  lemma CreateValidation(db: Db, tenantId: string, userId: string, req: CreateRequest, now: int, f: Fault)
    ensures var h := CreatePlan(db, tenantId, userId, req, now, f);
      && (req.name == "" || req.kind == "" ==> h.reply == Failure(400, NameAndTypeRequired, None) && h.run.done == [])
      && (req.name != "" && req.kind != "" && req.kind !in AgentTypes ==> h.reply == Failure(400, InvalidType, None) && h.run.done == [])
      && (ValidateCreate(req).Pass? <==> req.name != "" && req.kind in AgentTypes)
  {
  }

  /**
   * Without faults, a valid creation inserts one agent of the requester's
   * tenant, inactive, at version 1.0.0, served at `/api/<type>-agent`, with
   * the description defaulting to `<type> analysis agent` and every
   * supplied config key overriding the type's default, then exactly one
   * info log keyed by the new agent's id; the reply is 201 with the agent.
   */
  lemma CreateSucceeds(db: Db, tenantId: string, userId: string, req: CreateRequest, now: int)
    requires ValidateCreate(req).Pass?
    ensures var h := CreatePlan(db, tenantId, userId, req, now, NoFault);
      var ws := h.run.done;
      && |ws| == 2 && ws[0].NewAgent? && ws[1].NewLog?
      && h.reply == Success(201, ws[0].agent)
      && var a := ws[0].agent;
      && a.tenantId == tenantId && a.name == req.name && a.kind == req.kind
      && a.status == "inactive" && a.version == "1.0.0"
      && a.endpointUrl == "/api/" + req.kind + "-agent"
      && a.description == (if req.description == "" then req.kind + " analysis agent" else req.description)
      && a.createdBy == userId
      && (req.config.Some? ==> forall k :: k in Spread(req.config.value) ==> k in a.config && a.config[k] == Spread(req.config.value)[k])
      && (forall k :: k in DefaultConfig(req.kind) && (req.config.None? || k !in Spread(req.config.value))
            ==> k in a.config && a.config[k] == DefaultConfig(req.kind)[k])
      && ws[1].entry.agentId == a.id && ws[1].entry.level == Info && ws[1].entry.tenantId == tenantId
  {
  }

  /**
   * A failed agent insert writes nothing; a failed log insert leaves the
   * agent created without its log. Both are answered 500 with the error.
   */
  lemma CreateFaults(db: Db, tenantId: string, userId: string, req: CreateRequest, now: int, m: string)
    requires ValidateCreate(req).Pass?
    ensures var h := CreatePlan(db, tenantId, userId, req, now, FailAt(0, m));
      h.run.done == [] && h.reply == Failure(500, CreateFailed, Some(m))
    ensures var h := CreatePlan(db, tenantId, userId, req, now, FailAt(1, m));
      |h.run.done| == 1 && h.run.done[0].NewAgent? && h.reply == Failure(500, CreateFailed, Some(m))
  {
  }

  /** The `pagination` object; `pages` is absent when a zero limit makes it `Infinity` or `NaN`. */
  datatype Pagination = Pagination(page: int, limit: int, total: nat, pages: Option<int>)

  datatype AgentCounts = AgentCounts(total: nat, active: nat, inactive: nat, sentiment: nat, recommendation: nat, performance: nat)

  datatype Listing = Listing(data: seq<Agent>, pagination: Pagination, statistics: AgentCounts)

  /** The query of a listing: `status` and `type` ("" when missing), and `page` and `limit` as `parseInt` reads them, when supplied. */
  datatype ListRequest = ListRequest(status: string, kind: string, page: Option<int>, limit: Option<int>)

  /** A `slice` index: negative ones count from the end, and both ends are clipped to the sequence. */
  function SliceIndex(i: int, n: nat): (r: nat)
    ensures r <= n
    ensures 0 <= i <= n ==> r == i
  {
    if i < 0 then (if n + i < 0 then 0 else n + i) else if i > n then n else i
  }

  /** `s.slice(start, end)`. */
  function Slice<T>(s: seq<T>, start: int, end: int): seq<T>
  {
    var a := SliceIndex(start, |s|);
    var b := SliceIndex(end, |s|);
    if a < b then s[a..b] else []
  }

  /** `Math.ceil(total / limit)`; a zero limit divides to `Infinity` or `NaN`, which is not a page count. */
  function Pages(total: nat, limit: int): (r: Option<int>)
    ensures limit > 0 ==> r.Some? && r.value >= 0
  {
    if limit > 0 then Some((total + limit - 1) / limit)
    else if limit < 0 then Some(-(total / -limit))
    else None
  }

  function IsActive(a: Agent): bool { a.status == "active" }
  function IsInactive(a: Agent): bool { a.status == "inactive" }
  function IsSentiment(a: Agent): bool { a.kind == "sentiment" }
  function IsRecommendation(a: Agent): bool { a.kind == "recommendation" }
  function IsPerformance(a: Agent): bool { a.kind == "performance" }

  function CountsOf(agents: seq<Agent>): AgentCounts
  {
    AgentCounts(|agents|, Count(agents, IsActive), Count(agents, IsInactive),
                Count(agents, IsSentiment), Count(agents, IsRecommendation), Count(agents, IsPerformance))
  }

  /** `listAgents` for tenant `tenantId`: `page = 1` and `limit = 10` apply when not supplied. */
  function ListAgents(db: Db, tenantId: string, req: ListRequest): Listing
  {
    var agents := GetAgents(db, tenantId, req.status, req.kind);
    var page := if req.page.Some? then req.page.value else 1;
    var limit := if req.limit.Some? then req.limit.value else 10;
    var start := (page - 1) * limit;
    Listing(Slice(agents, start, start + limit), Pagination(page, limit, |agents|, Pages(|agents|, limit)), CountsOf(agents))
  }

  /**
   * The listing draws on exactly the agents of the requester's tenant, of
   * the given status and type when those are supplied; its statistics count
   * active and inactive agents, and the three types, within the total.
   */
  lemma ListScope(db: Db, tenantId: string, req: ListRequest)
    requires tenantId != ""
    ensures var l := ListAgents(db, tenantId, req);
      var agents := GetAgents(db, tenantId, req.status, req.kind);
      && (forall a :: a in l.data ==> a in agents)
      && (forall a :: a in agents <==> a in db.agents && a.tenantId == tenantId && (req.status != "" ==> a.status == req.status)
                                       && (req.kind != "" ==> a.kind == req.kind))
      && l.statistics.total == l.pagination.total == |agents|
      && l.statistics.active + l.statistics.inactive <= l.statistics.total
      && l.statistics.sentiment + l.statistics.recommendation + l.statistics.performance <= l.statistics.total
  {
    var l := ListAgents(db, tenantId, req);
    var agents := GetAgents(db, tenantId, req.status, req.kind);
    CountDisjoint(agents, IsActive, IsInactive);
    var other := (a: Agent) => IsRecommendation(a) || IsPerformance(a);
    CountSplit(agents, other, IsRecommendation, IsPerformance);
    CountDisjoint(agents, IsSentiment, other);
  }

  /**
   * For a page `p >= 1` and a limit `l >= 1` the listing is the slice
   * `[(p-1)l, pl)` of the tenant's agents, clipped to them, and the page
   * count is the least number of pages of `l` that holds them all.
   */
  lemma PageSlice(db: Db, tenantId: string, req: ListRequest, p: int, l: int)
    requires req.page == Some(p) && req.limit == Some(l) && p >= 1 && l >= 1
    ensures var agents := GetAgents(db, tenantId, req.status, req.kind);
      var n := |agents|;
      var lo := if (p - 1) * l < n then (p - 1) * l else n;
      var hi := if p * l < n then p * l else n;
      0 <= lo <= hi && ListAgents(db, tenantId, req).data == agents[lo..hi]
  {
    var agents := GetAgents(db, tenantId, req.status, req.kind);
    assert ListAgents(db, tenantId, req).data == Slice(agents, (p - 1) * l, (p - 1) * l + l);
    PageWindow(agents, p, l);
  }

  /**
   * For a limit `l >= 1` the page count is the least number of pages of
   * `l` that holds all the listed agents.
   */
  lemma PageCount(db: Db, tenantId: string, req: ListRequest, l: int)
    requires req.limit == Some(l) && l >= 1
    ensures ListAgents(db, tenantId, req).pagination.pages.Some?
    ensures var n := |GetAgents(db, tenantId, req.status, req.kind)|;
      var pages := ListAgents(db, tenantId, req).pagination.pages.value;
      n <= pages * l && (pages - 1) * l < n + (if n == 0 then l else 0)
  {
    var agents := GetAgents(db, tenantId, req.status, req.kind);
    assert ListAgents(db, tenantId, req).pagination.pages == Pages(|agents|, l);
    PagesBounds(|agents|, l);
  }

  /** The window of page `p` of `l` items, clipped to the sequence. */
  lemma PageWindow<T>(s: seq<T>, p: int, l: int)
    requires p >= 1 && l >= 1
    ensures var lo := if (p - 1) * l < |s| then (p - 1) * l else |s|;
      var hi := if p * l < |s| then p * l else |s|;
      0 <= lo <= hi && Slice(s, (p - 1) * l, (p - 1) * l + l) == s[lo..hi]
  {
    var start := (p - 1) * l;
    PageStart(p, l);
    SliceWindow(s, start, l);
  }

  lemma PageStart(p: int, l: int)
    requires p >= 1 && l >= 1
    ensures (p - 1) * l >= 0 && (p - 1) * l + l == p * l
  {
  }

  /** The window of `l` items from `start`, clipped to the sequence. */
  lemma SliceWindow<T>(s: seq<T>, start: int, l: int)
    requires start >= 0 && l >= 1
    ensures var lo := if start < |s| then start else |s|;
      var hi := if start + l < |s| then start + l else |s|;
      Slice(s, start, start + l) == s[lo..hi]
  {
  }

  lemma PagesBounds(n: nat, l: int)
    requires l >= 1
    ensures Pages(n, l).Some?
    ensures var pages := Pages(n, l).value;
      n <= pages * l && (pages - 1) * l < n + (if n == 0 then l else 0)
  {
    var pages := (n + l - 1) / l;
    var r := (n + l - 1) % l;
    assert n + l - 1 == pages * l + r;
  }

  /** Every agent of a listing is on exactly one page: the `i`-th (from 0) is item `i % l` of page `i / l + 1`. */
  lemma PageOf(agents: seq<Agent>, l: int, i: int)
    requires l >= 1 && 0 <= i < |agents|
    ensures var p := i / l + 1;
      var page := Slice(agents, (p - 1) * l, (p - 1) * l + l);
      && 1 <= p <= Pages(|agents|, l).value
      && i % l < |page| && page[i % l] == agents[i]
  {
    var p := i / l + 1;
    assert i == (p - 1) * l + i % l;
    PagesBounds(|agents|, l);
    var pages := Pages(|agents|, l).value;
    assert (p - 1) * l < pages * l;
    MultiplyCancel(p - 1, pages, l);
  }

  lemma MultiplyCancel(a: int, b: int, l: int)
    requires l >= 1 && a * l < b * l
    ensures a < b
  {
  }

  const IdRequired: string := "Agent ID is required"
  const AccessDenied: string := "Access denied"
  const UpdateFailed: string := "Failed to update agent"
  const DeleteFailed: string := "Failed to delete agent"

  /** The columns an update body supplies, as the log's `updates` records them. */
  function PatchValue(p: AgentPatch): Value
  {
    Obj(Defined(Defined(Defined(Defined(Defined(Defined(Defined(Defined(map[],
          "name", StrOf(p.name)), "type", StrOf(p.kind)), "description", StrOf(p.description)),
          "status", StrOf(p.status)), "version", StrOf(p.version)), "endpoint_url", StrOf(p.endpointUrl)),
          "config", if p.config.Some? then Some(Obj(p.config.value)) else None), "tenant_id", StrOf(p.tenantId)))
  }

  function StrOf(s: Option<string>): Option<Value>
  {
    if s.Some? then Some(Str(s.value)) else None
  }

  function Defined(m: map<string, Value>, key: string, v: Option<Value>): map<string, Value>
  {
    if v.Some? then m[key := v.value] else m
  }

  /** An agent row as the deletion log's `deleted_agent` records it. */
  function AgentValue(a: Agent): Value
  {
    Obj(map["id" := Str(a.id), "tenant_id" := Str(a.tenantId), "name" := Str(a.name), "type" := Str(a.kind),
            "description" := Str(a.description), "status" := Str(a.status), "version" := Str(a.version),
            "endpoint_url" := Str(a.endpointUrl), "config" := Obj(a.config), "created_by" := Str(a.createdBy),
            "created_at" := Number(a.createdAt)])
  }

  /** How the gate of `updateAgent` and `deleteAgent` ends. */
  datatype Admission = MissingId | LookupFailed(message: string) | Foreign | Owned(agent: Agent)

  /**
   * The gate of `updateAgent` and `deleteAgent`: the id is required, the
   * lookup must find exactly one agent (else its error is thrown), and
   * the agent must belong to the requester's tenant.
   */
  function Gate(db: Db, tenantId: string, id: string): Admission
  {
    if id == "" then MissingId
    else
      var existing := GetAgentById(db, id);
      if existing.Err? then LookupFailed(existing.message)
      else if existing.value.tenantId != tenantId then Foreign
      else Owned(existing.value)
  }

  /** The answer of a gate that refused: 400, 403, or 500 with the lookup's error. */
  function Refusal<T>(gate: Admission, failed: string): Reply<T>
    requires !gate.Owned?
  {
    match gate
    case MissingId => Failure(400, IdRequired, None)
    case Foreign => Failure(403, AccessDenied, None)
    case LookupFailed(message) => Failure(500, failed, Some(message))
  }

  /** What `updateAgent` does with the changes `changes` for agent `id` under the write faults `f`. */
  function UpdatePlan(db: Db, tenantId: string, id: string, changes: AgentPatch, now: int, f: Fault): Handled<Agent>
  {
    var gate := Gate(db, tenantId, id);
    if !gate.Owned? then Handled(Run([], None, 0), Refusal(gate, UpdateFailed))
    else
      var updated := AgentPatched(gate.agent, changes);
      var log := LogEntry(tenantId, id, Info, Text("Agent updated: " + updated.name), map["updates" := PatchValue(changes)], now);
      var run := TwoWrites(AgentUpdate(id, changes), NewLog(log), f);
      Handled(run, if run.error.None? then Success(200, updated) else Failure(500, UpdateFailed, run.error))
  }

  /** `updateAgent`: the id check, the ownership check, the update, then the log. */
  method UpdateAgent(store: Store, tenantId: string, id: string, changes: AgentPatch, now: int, f: Fault)
    returns (reply: Reply<Agent>)
    modifies store
    ensures var h := UpdatePlan(old(store.State()), tenantId, id, changes, now, f);
      reply == h.reply && store.State() == ApplyAll(old(store.State()), h.run.done)
  {
    var gate := Gate(store.State(), tenantId, id);
    if !gate.Owned? {
      return Refusal(gate, UpdateFailed);
    }
    ghost var db := store.State();
    var updated := AgentPatched(gate.agent, changes);
    var error := store.UpdateAgent(id, changes, FaultAt(f, 0));
    if error.Some? {
      return Failure(500, UpdateFailed, error);
    }
    assert ApplyAll(db, [AgentUpdate(id, changes)]) == store.State() by {
      assert [AgentUpdate(id, changes)][..0] == [];
    }
    var log := LogEntry(tenantId, id, Info, Text("Agent updated: " + updated.name), map["updates" := PatchValue(changes)], now);
    error := store.InsertLog(log, FaultAt(f, 1));
    if error.Some? {
      return Failure(500, UpdateFailed, error);
    }
    assert [AgentUpdate(id, changes), NewLog(log)][..1] == [AgentUpdate(id, changes)];
    return Success(200, updated);
  }

  /** What `deleteAgent` does for agent `id` under the write faults `f`. */
  function DeletePlan(db: Db, tenantId: string, id: string, now: int, f: Fault): Handled<()>
  {
    var gate := Gate(db, tenantId, id);
    if !gate.Owned? then Handled(Run([], None, 0), Refusal(gate, DeleteFailed))
    else
      var log := LogEntry(tenantId, id, Info, Text("Agent deleted: " + gate.agent.name), map["deleted_agent" := AgentValue(gate.agent)], now);
      var run := TwoWrites(AgentRemoval(id), NewLog(log), f);
      Handled(run, if run.error.None? then Success(200, ()) else Failure(500, DeleteFailed, run.error))
  }

  /** `deleteAgent`: the id check, the ownership check, the delete, then the log. */
  method DeleteAgent(store: Store, tenantId: string, id: string, now: int, f: Fault) returns (reply: Reply<()>)
    modifies store
    ensures var h := DeletePlan(old(store.State()), tenantId, id, now, f);
      reply == h.reply && store.State() == ApplyAll(old(store.State()), h.run.done)
  {
    var gate := Gate(store.State(), tenantId, id);
    if !gate.Owned? {
      return Refusal(gate, DeleteFailed);
    }
    ghost var db := store.State();
    var error := store.DeleteAgent(id, FaultAt(f, 0));
    if error.Some? {
      return Failure(500, DeleteFailed, error);
    }
    assert ApplyAll(db, [AgentRemoval(id)]) == store.State() by {
      assert [AgentRemoval(id)][..0] == [];
    }
    var log := LogEntry(tenantId, id, Info, Text("Agent deleted: " + gate.agent.name), map["deleted_agent" := AgentValue(gate.agent)], now);
    error := store.InsertLog(log, FaultAt(f, 1));
    if error.Some? {
      return Failure(500, DeleteFailed, error);
    }
    assert [AgentRemoval(id), NewLog(log)][..1] == [AgentRemoval(id)];
    return Success(200, ());
  }

  /**
   * Updating: a missing id is answered 400 and an agent of another tenant
   * 403, both without any write; the agent of the requester's tenant is
   * updated and one info log is written.
   */
  lemma UpdateGate(db: Db, tenantId: string, id: string, changes: AgentPatch, now: int, f: Fault)
    ensures var h := UpdatePlan(db, tenantId, id, changes, now, f);
      && (id == "" ==> h.reply == Failure(400, IdRequired, None) && h.run.done == [])
      && (id != "" && GetAgentById(db, id).Err? ==> h.reply.Failure? && h.reply.status == 500 && h.run.done == [])
      && (id != "" && GetAgentById(db, id).Ok? && GetAgentById(db, id).value.tenantId != tenantId
          ==> h.reply == Failure(403, AccessDenied, None) && h.run.done == [])
      && (id != "" && GetAgentById(db, id).Ok? && GetAgentById(db, id).value.tenantId == tenantId && f == NoFault
          ==> |h.run.done| == 2 && h.run.done[0] == AgentUpdate(id, changes)
              && h.run.done[1].NewLog? && h.run.done[1].entry.level == Info && h.run.done[1].entry.agentId == id
              && h.reply == Success(200, AgentPatched(GetAgentById(db, id).value, changes)))
  {
  }

  /**
   * Deleting: a missing id is answered 400 and an agent of another tenant
   * 403, both without any write; the agent of the requester's tenant is
   * removed from the store and one info log is written.
   */
  lemma DeleteGate(db: Db, tenantId: string, id: string, now: int, f: Fault)
    ensures var h := DeletePlan(db, tenantId, id, now, f);
      && (id == "" ==> h.reply == Failure(400, IdRequired, None) && h.run.done == [])
      && (id != "" && GetAgentById(db, id).Err? ==> h.reply.Failure? && h.reply.status == 500 && h.run.done == [])
      && (id != "" && GetAgentById(db, id).Ok? && GetAgentById(db, id).value.tenantId != tenantId
          ==> h.reply == Failure(403, AccessDenied, None) && h.run.done == [])
      && (id != "" && GetAgentById(db, id).Ok? && GetAgentById(db, id).value.tenantId == tenantId && f == NoFault
          ==> |h.run.done| == 2 && h.run.done[0] == AgentRemoval(id)
              && h.run.done[1].NewLog? && h.run.done[1].entry.agentId == id
              && (forall a :: a in ApplyAll(db, h.run.done).agents ==> a.id != id))
  {
    var h := DeletePlan(db, tenantId, id, now, f);
    if id != "" && GetAgentById(db, id).Ok? && GetAgentById(db, id).value.tenantId == tenantId && f == NoFault {
      var after := ApplyAll(db, h.run.done);
      assert h.run.done[..1] == [AgentRemoval(id)];
      assert [AgentRemoval(id)][..0] == [];
      assert ApplyAll(db, [AgentRemoval(id)]) == Apply(db, AgentRemoval(id));
      assert after == Apply(Apply(db, AgentRemoval(id)), h.run.done[1]);
      assert after.agents == Filter(db.agents, (a: Agent) => a.id != id);
      forall a | a in after.agents
        ensures a.id != id
      {
        var i :| 0 <= i < |after.agents| && after.agents[i] == a;
      }
    }
  }
}
