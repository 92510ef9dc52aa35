/**
 * The stores the handlers write through (`TaskDatabase`, `MetricsDatabase`,
 * `LogDatabase`, `AgentDatabase` of api/utils/database.js) and the
 * try/catch bookkeeping that every task handler wraps around its work.
 *
 * Any write may fail (the client returns `error` and the method throws). The
 * failures of one request are given by a `Fault`: the write attempted as
 * number `attempt` of the request (counting from 0) fails with `message`.
 */
module Storage {
  import opened Wrappers
  import opened Domain
  import opened Database

  datatype Fault = NoFault | FailAt(attempt: nat, message: string)

  function FaultAt(f: Fault, k: nat): Option<string>
  {
    if f.FailAt? && f.attempt == k then Some(f.message) else None
  }

  /** A step of a handler's `try` block: a store write, or an exception thrown by the handler's own code. */
  datatype Step = Do(write: Write) | Crash(message: string)

  /** The writes that took effect, the exception that ended the steps (if any), and the next attempt number. */
  datatype Run = Run(done: seq<Write>, error: Option<string>, next: nat)

  predicate NoCrash(steps: seq<Step>)
  {
    forall i :: 0 <= i < |steps| ==> steps[i].Do?
  }

  /** The writes of steps that cannot crash. */
  function Writes(steps: seq<Step>): (ws: seq<Write>)
    requires NoCrash(steps)
    ensures |ws| == |steps|
    ensures forall i :: 0 <= i < |steps| ==> ws[i] == steps[i].write
  {
    seq(|steps|, i requires 0 <= i < |steps| => steps[i].write)
  }

  /** The steps run one after another from attempt `n`; the first exception stops them. */
  function Exec(steps: seq<Step>, n: nat, f: Fault): (r: Run)
    ensures n <= r.next <= n + |steps|
    ensures |r.done| <= |steps|
  {
    if steps == [] then Run([], None, n)
    else match steps[0]
      case Crash(m) => Run([], Some(m), n)
      case Do(w) =>
        if FaultAt(f, n).Some? then Run([], FaultAt(f, n), n + 1)
        else
          var rest := Exec(steps[1..], n + 1, f);
          Run([w] + rest.done, rest.error, rest.next)
  }

  /** `done` followed by the run `r`. */
  function After(done: seq<Write>, r: Run): Run
  {
    Run(done + r.done, r.error, r.next)
  }

  /**
   * What follows a created task: the work's steps, and when they throw (or
   * the work itself failed) the `catch` block's steps for that error, after
   * which the error is rethrown. An error inside the `catch` block escapes
   * instead.
   */
  function Conclude(work: Result<seq<Step>>, recover: string -> seq<Step>, f: Fault): Run
  {
    var s := if work.Ok? then Exec(work.value, 1, f) else Run([], Some(work.message), 1);
    if s.error.None? then s
    else
      var rec := Exec(recover(s.error.value), s.next, f);
      Run(s.done + rec.done, Some(if rec.error.Some? then rec.error.value else s.error.value), rec.next)
  }

  /**
   * The task lifecycle of a handler: the task is created by write 0; if that
   * fails nothing else happens; otherwise the work, which reads the store as
   * the creation left it, is concluded as above.
   */
  function Lifecycle(db: Db, create: Write, work: Db -> Result<seq<Step>>, recover: string -> seq<Step>, f: Fault): Run
  {
    if FaultAt(f, 0).Some? then Run([], FaultAt(f, 0), 1)
    else After([create], Conclude(work(Apply(db, create)), recover, f))
  }

  lemma {:induction false} ExecClean(steps: seq<Step>, n: nat, f: Fault)
    requires NoCrash(steps)
    requires forall k :: n <= k < n + |steps| ==> FaultAt(f, k).None?
    ensures Exec(steps, n, f) == Run(Writes(steps), None, n + |steps|)
  {
    if steps != [] {
      ExecClean(steps[1..], n + 1, f);
      assert Writes(steps) == [steps[0].write] + Writes(steps[1..]);
    }
  }

  lemma {:induction false} ExecFault(steps: seq<Step>, n: nat, f: Fault)
    requires NoCrash(steps)
    requires f.FailAt? && n <= f.attempt < n + |steps|
    ensures Exec(steps, n, f) == Run(Writes(steps[..f.attempt - n]), Some(f.message), f.attempt + 1)
  {
    if f.attempt > n {
      ExecFault(steps[1..], n + 1, f);
      assert steps[1..][..f.attempt - n - 1] == steps[1..f.attempt - n];
      assert Writes(steps[..f.attempt - n]) == [steps[0].write] + Writes(steps[1..f.attempt - n]);
    } else {
      assert steps[..0] == [];
    }
  }

  lemma {:induction false} ExecCrash(pre: seq<Step>, m: string, post: seq<Step>, n: nat, f: Fault)
    requires NoCrash(pre)
    requires forall k :: n <= k < n + |pre| ==> FaultAt(f, k).None?
    ensures Exec(pre + [Crash(m)] + post, n, f) == Run(Writes(pre), Some(m), n + |pre|)
  {
    if pre != [] {
      assert (pre + [Crash(m)] + post)[1..] == pre[1..] + [Crash(m)] + post;
      ExecCrash(pre[1..], m, post, n + 1, f);
      assert Writes(pre) == [pre[0].write] + Writes(pre[1..]);
    }
  }

  /** When the creation write fails, nothing is written and its error is the outcome. */
  lemma LifecycleCreateFails(db: Db, create: Write, work: Db -> Result<seq<Step>>, recover: string -> seq<Step>, m: string)
    ensures Lifecycle(db, create, work, recover, FailAt(0, m)) == Run([], Some(m), 1)
  {
  }

  /** Without faults, a work that succeeds writes the task, then its steps, and ends without error. */
  lemma LifecycleSucceeds(db: Db, create: Write, work: Db -> Result<seq<Step>>, recover: string -> seq<Step>)
    requires work(Apply(db, create)).Ok? && NoCrash(work(Apply(db, create)).value)
    ensures Lifecycle(db, create, work, recover, NoFault).done == [create] + Writes(work(Apply(db, create)).value)
    ensures Lifecycle(db, create, work, recover, NoFault).error == None
  {
    ExecClean(work(Apply(db, create)).value, 1, NoFault);
  }

  /** Without faults, a work that fails writes the task, then the catch block's steps, and rethrows. */
  lemma LifecycleWorkFails(db: Db, create: Write, work: Db -> Result<seq<Step>>, recover: string -> seq<Step>)
    requires work(Apply(db, create)).Err?
    requires NoCrash(recover(work(Apply(db, create)).message))
    ensures var m := work(Apply(db, create)).message;
      Lifecycle(db, create, work, recover, NoFault) == Run([create] + Writes(recover(m)), Some(m), 1 + |recover(m)|)
  {
    ExecClean(recover(work(Apply(db, create)).message), 1, NoFault);
  }

  /**
   * A write of the success path that fails (attempt `k`, 1-based within the
   * work's steps) falls into the catch block: the writes before it stay, the
   * recovery writes follow, and the write's error is rethrown.
   */
  lemma LifecycleLateFault(db: Db, create: Write, work: Db -> Result<seq<Step>>, recover: string -> seq<Step>, k: nat, m: string)
    requires work(Apply(db, create)).Ok? && NoCrash(work(Apply(db, create)).value)
    requires 1 <= k <= |work(Apply(db, create)).value|
    requires NoCrash(recover(m))
    ensures var steps := work(Apply(db, create)).value;
      Lifecycle(db, create, work, recover, FailAt(k, m)) == Run([create] + Writes(steps[..k - 1]) + Writes(recover(m)), Some(m), k + 1 + |recover(m)|)
  {
    var steps := work(Apply(db, create)).value;
    ExecFault(steps, 1, FailAt(k, m));
    ExecClean(recover(m), k + 1, FailAt(k, m));
  }

  /** Without faults, an exception thrown after some writes of the success path is handled like a failed work. */
  lemma LifecycleCrash(db: Db, create: Write, work: Db -> Result<seq<Step>>, recover: string -> seq<Step>, pre: seq<Step>, m: string, post: seq<Step>)
    requires work(Apply(db, create)) == Ok(pre + [Crash(m)] + post)
    requires NoCrash(pre) && NoCrash(recover(m))
    ensures Lifecycle(db, create, work, recover, NoFault).done == [create] + Writes(pre) + Writes(recover(m))
    ensures Lifecycle(db, create, work, recover, NoFault).error == Some(m)
  {
    ExecCrash(pre, m, post, 1, NoFault);
    ExecClean(recover(m), 1 + |pre|, NoFault);
  }

  /** A failed work always surfaces as an error, whatever the faults. */
  lemma LifecycleErrorSurfaces(db: Db, create: Write, work: Db -> Result<seq<Step>>, recover: string -> seq<Step>, f: Fault)
    requires work(Apply(db, create)).Err?
    ensures Lifecycle(db, create, work, recover, f).error.Some?
  {
  }

  /** The tables, updated in place by the writes of the handlers. */
  class Store {
    var agents: seq<Agent>
    var tasks: seq<Task>
    var metrics: seq<Metric>
    var logs: seq<LogEntry>
    var nextTask: nat
    var nextAgent: nat

    function State(): Db
      reads this
    {
      Db(agents, tasks, metrics, logs, nextTask, nextAgent)
    }

    constructor (db: Db)
      ensures State() == db
    {
      agents, tasks, metrics, logs := db.agents, db.tasks, db.metrics, db.logs;
      nextTask, nextAgent := db.nextTask, db.nextAgent;
    }

    /** `createTask`: inserts the row; the id is the counter's value. */
    method CreateTask(task: Task, failure: Option<string>) returns (error: Option<string>)
      modifies this
      ensures error == failure
      ensures State() == if failure.Some? then old(State()) else Apply(old(State()), NewTask(task))
    {
      if failure.Some? {
        return failure;
      }
      tasks := tasks + [task];
      nextTask := nextTask + 1;
      return None;
    }

    /** `updateTask(id, updates)`: patches every row with the id. */
    method UpdateTask(id: nat, patch: TaskPatch, failure: Option<string>) returns (error: Option<string>)
      modifies this
      ensures error == failure
      ensures State() == if failure.Some? then old(State()) else Apply(old(State()), TaskUpdate(id, patch))
    {
      if failure.Some? {
        return failure;
      }
      tasks := seq(|tasks|, i requires 0 <= i < |tasks| reads this =>
        if tasks[i].id == id then Patched(tasks[i], patch) else tasks[i]);
      return None;
    }

    /** `recordMetrics`. */
    method RecordMetrics(metric: Metric, failure: Option<string>) returns (error: Option<string>)
      modifies this
      ensures error == failure
      ensures State() == if failure.Some? then old(State()) else Apply(old(State()), NewMetric(metric))
    {
      if failure.Some? {
        return failure;
      }
      metrics := metrics + [metric];
      return None;
    }

    /** `insertLog`. */
    method InsertLog(entry: LogEntry, failure: Option<string>) returns (error: Option<string>)
      modifies this
      ensures error == failure
      ensures State() == if failure.Some? then old(State()) else Apply(old(State()), NewLog(entry))
    {
      if failure.Some? {
        return failure;
      }
      logs := logs + [entry];
      return None;
    }

    /** `createAgent`. */
    method CreateAgent(agent: Agent, failure: Option<string>) returns (error: Option<string>)
      modifies this
      ensures error == failure
      ensures State() == if failure.Some? then old(State()) else Apply(old(State()), NewAgent(agent))
    {
      if failure.Some? {
        return failure;
      }
      agents := agents + [agent];
      nextAgent := nextAgent + 1;
      return None;
    }

    /** `updateAgent(id, updates)`. */
    method UpdateAgent(id: string, changes: AgentPatch, failure: Option<string>) returns (error: Option<string>)
      modifies this
      ensures error == failure
      ensures State() == if failure.Some? then old(State()) else Apply(old(State()), AgentUpdate(id, changes))
    {
      if failure.Some? {
        return failure;
      }
      agents := seq(|agents|, i requires 0 <= i < |agents| reads this =>
        if agents[i].id == id then AgentPatched(agents[i], changes) else agents[i]);
      return None;
    }

    /** `deleteAgent(id)`. */
    method DeleteAgent(id: string, failure: Option<string>) returns (error: Option<string>)
      modifies this
      ensures error == failure
      ensures State() == if failure.Some? then old(State()) else Apply(old(State()), AgentRemoval(id))
    {
      if failure.Some? {
        return failure;
      }
      agents := Lists.Filter(agents, (a: Agent) => a.id != id);
      return None;
    }

    /** One write through the store it belongs to. */
    method Perform(w: Write, failure: Option<string>) returns (error: Option<string>)
      modifies this
      ensures error == failure
      ensures State() == if failure.Some? then old(State()) else Apply(old(State()), w)
    {
      match w {
        case NewTask(t) => error := CreateTask(t, failure);
        case TaskUpdate(id, p) => error := UpdateTask(id, p, failure);
        case NewMetric(m) => error := RecordMetrics(m, failure);
        case NewLog(e) => error := InsertLog(e, failure);
        case NewAgent(a) => error := CreateAgent(a, failure);
        case AgentUpdate(id, p) => error := UpdateAgent(id, p, failure);
        case AgentRemoval(id) => error := DeleteAgent(id, failure);
      }
    }

    /** The awaited steps of a `try` block, in order, up to the first exception. */
    method Execute(steps: seq<Step>, n: nat, f: Fault) returns (r: Run)
      modifies this
      ensures r == Exec(steps, n, f)
      ensures State() == ApplyAll(old(State()), r.done)
    {
      var i, k, done := 0, n, [];
      while i < |steps|
        invariant 0 <= i <= |steps|
        invariant Exec(steps, n, f) == After(done, Exec(steps[i..], k, f))
        invariant State() == ApplyAll(old(State()), done)
      {
        assert steps[i..][1..] == steps[i + 1..];
        match steps[i] {
          case Crash(m) =>
            return Run(done, Some(m), k);
          case Do(w) =>
            var error := Perform(w, FaultAt(f, k));
            if error.Some? {
              assert done + [] == done;
              return Run(done, error, k + 1);
            }
            assert (done + [w])[..|done|] == done;
            assert done + ([w] + Exec(steps[i + 1..], k + 1, f).done) == done + [w] + Exec(steps[i + 1..], k + 1, f).done;
            done := done + [w];
            k := k + 1;
        }
        i := i + 1;
      }
      assert done + [] == done;
      return Run(done, None, k);
    }

    /** The rest of a task handler after the task was created: the work's steps, or the catch block. */
    method Settle(work: Result<seq<Step>>, recover: string -> seq<Step>, f: Fault) returns (r: Run)
      modifies this
      ensures r == Conclude(work, recover, f)
      ensures State() == ApplyAll(old(State()), r.done)
    {
      var s;
      if work.Ok? {
        s := Execute(work.value, 1, f);
      } else {
        s := Run([], Some(work.message), 1);
      }
      if s.error.None? {
        return s;
      }
      var rec := Execute(recover(s.error.value), s.next, f);
      ApplyAllConcat(old(State()), s.done, rec.done);
      var error := if rec.error.Some? then rec.error.value else s.error.value;
      return Run(s.done + rec.done, Some(error), rec.next);
    }
  }
}
