/**
 backend/main.py as a step system: every live `process_single_task` coroutine
 is a `Pipe` with a program counter, and every stretch of code between two
 suspension points is one `Action`. Which coroutine moves next, what the worker
 returns, and all random draws are chosen freely.
 */
module Pipelines {
  import opened Collections
  import opened Models
  import opened MemoryQueues
  import opened TaskStores
  import opened LoadBalancers
  import opened Schedulers
  import opened RetryAgents
  import opened Critics

  /** Where a coroutine is suspended. */
  datatype Pc =
    | Start                          // created, not yet run
    | Waiting                        // found no worker, sleeping before the second attempt
    | Assigned(worker: string)       // worker chosen
    | Running(worker: string)        // inside the worker's execute
    | Failed(result: TaskResult)     // failure recorded, retry agent not yet asked
    | Backoff(delay: real)           // retry decided, sleeping
    | Completed(result: TaskResult)  // success recorded, critic not yet asked
    | Judged                         // critic has answered, dependants not yet scheduled
    | Done

  datatype Pipe = Pipe(task: string, pc: Pc)

  predicate Live(p: Pipe) { !p.pc.Done? }

  /** What the monitor is told; `saturated` and `floored` record that a load was clamped. */
  datatype Event =
    | TaskAssigned(task: string, worker: string, saturated: bool)
    | WorkerUnavailable(task: string)
    | TaskDeferred(task: string)
    | TaskStarted(task: string, worker: string)
    | TaskFailed(task: string, worker: string, floored: bool)
    | TaskCompleted(task: string, worker: string, floored: bool)
    | RetryScheduled(task: string)
    | DeadLettered(task: string)
    | TaskValidated(task: string)
    | ValidationFailed(task: string)

  /**
   The whole orchestrator. `desk.results` is the history of all placements,
   `pipes` keeps finished coroutines as Done, `log` is the history of events.
   */
  datatype System = System(desk: Desk, pipes: seq<Pipe>, log: seq<Event>) {
    function Store(): Store { desk.store }

    function Tasks(): map<string, Task> { desk.store.tasks }

    predicate Quiescent() {
      forall i :: 0 <= i < |pipes| ==> !Live(pipes[i])
    }
  }

  datatype Action =
    | Assign(i: nat)
    | Begin(i: nat)
    | Finish(i: nat, result: TaskResult)
    | Recover(i: nat, jitter: real)
    | Respawn(i: nat)
    | Judge(i: nat, variance: int)
    | Wake(i: nat)

  ghost predicate Enabled(s: System, a: Action) {
    && a.i < |s.pipes| && s.pipes[a.i].task in s.Tasks() && s.desk.Usable()
    && var p := s.pipes[a.i];
       match a
       case Assign(_) => p.pc.Start? || p.pc.Waiting?
       case Begin(_) => p.pc.Assigned?
       case Finish(_, result) => p.pc.Running? && result.taskId == p.task && result.workerId == p.pc.worker
       case Recover(_, jitter) => p.pc.Failed? && IsJitter(jitter)
       case Respawn(_) => p.pc.Backoff?
       case Judge(_, variance) => p.pc.Completed? && IsVariance(variance)
       case Wake(_) => p.pc.Judged?
  }

  /** Pipe `i` moves to `pc`, the store becomes `store`, and `event` is reported. */
  function Advance(s: System, i: nat, pc: Pc, store: Store, event: Event): System
    requires i < |s.pipes|
  {
    System(s.desk.(store := store), s.pipes[i := Pipe(s.pipes[i].task, pc)], s.log + [event])
  }

  function Starts(ids: seq<string>): (r: seq<Pipe>)
    ensures |r| == |ids| && forall k :: 0 <= k < |ids| ==> r[k] == Pipe(ids[k], Start)
  {
    seq(|ids|, k requires 0 <= k < |ids| => Pipe(ids[k], Start))
  }

  /** Schedule whatever is ready, then spawn a coroutine for every QUEUED task. */
  function Release(s: System): System
    requires s.desk.Usable()
  {
    var desk := Settle(s.desk);
    s.(desk := desk, pipes := s.pipes + Starts(desk.store.TasksByStatus(QUEUED)))
  }

  function AssignStep(s: System, i: nat): System
    requires i < |s.pipes| && s.pipes[i].task in s.Tasks()
  {
    var id := s.pipes[i].task;
    var spec := s.Tasks()[id].spec;
    match Choice(s.Store(), spec)
    case Some(w) =>
      Advance(s, i, Assigned(w), AfterAssign(s.Store(), spec),
              TaskAssigned(id, w, s.Store().workers[w].loadPct + LOAD_STEP > FULL_LOAD))
    case None =>
      if s.pipes[i].pc.Start?
      then Advance(s, i, Waiting, s.Store(), WorkerUnavailable(id))
      else Advance(s, i, Done, s.Store(), TaskDeferred(id))
  }

  function BeginStep(s: System, i: nat): System
    requires i < |s.pipes| && s.pipes[i].pc.Assigned?
  {
    var id, w := s.pipes[i].task, s.pipes[i].pc.worker;
    Advance(s, i, Running(w), s.Store().UpdateTask(id, (t: Task) => t.(status := RUNNING)), TaskStarted(id, w))
  }

  predicate Floors(s: Store, w: string) {
    w in s.workers && s.workers[w].loadPct - LOAD_STEP < 0
  }

  function FinishStep(s: System, i: nat, result: TaskResult): System
    requires i < |s.pipes| && s.pipes[i].pc.Running?
  {
    var id, w := s.pipes[i].task, s.pipes[i].pc.worker;
    var released := AfterRelease(s.Store(), w, !result.failed);
    if result.failed then
      Advance(s, i, Failed(result),
              released.UpdateTask(id, (t: Task) =>
                t.(status := FAILED, executionTime := Some(result.executionTime), errorMessage := result.error)),
              TaskFailed(id, w, Floors(s.Store(), w)))
    else
      var updated := released.UpdateTask(id, (t: Task) =>
        t.(status := COMPLETED, executionTime := Some(result.executionTime), result := result.result));
      Advance(s, i, Completed(result),
              updated.(history := updated.history + [ExecutionRecord(id, w, result.executionTime)]),
              TaskCompleted(id, w, Floors(s.Store(), w)))
  }

  function RecoverStep(settings: Settings, s: System, i: nat, jitter: real): System
    requires i < |s.pipes| && s.pipes[i].pc.Failed? && s.pipes[i].task in s.Tasks()
  {
    var id, result := s.pipes[i].task, s.pipes[i].pc.result;
    var retry := s.Tasks()[id].retryCount;
    var store := AfterFailure(s.Store(), settings, id, retry, result);
    match Decide(settings, retry, result, jitter)
    case DeadLetter(_) => Advance(s, i, Done, store, DeadLettered(id))
    case Retry(_, delay) => Advance(s, i, Backoff(delay), store, RetryScheduled(id))
  }

  /** The sleeping coroutine ends and a new one takes over the task. */
  function RespawnStep(s: System, i: nat): System
    requires i < |s.pipes|
  {
    s.(pipes := s.pipes[i := s.pipes[i].(pc := Done)] + [Pipe(s.pipes[i].task, Start)])
  }

  function JudgeStep(s: System, i: nat, variance: int): System
    requires i < |s.pipes| && s.pipes[i].pc.Completed? && s.pipes[i].task in s.Tasks()
  {
    var id, result := s.pipes[i].task, s.pipes[i].pc.result;
    var spec := s.Tasks()[id].spec;
    Advance(s, i, Judged, AfterValidation(s.Store(), spec, result, variance),
            if Accepts(s.Store(), spec, result, variance) then TaskValidated(id) else ValidationFailed(id))
  }

  function WakeStep(s: System, i: nat): System
    requires i < |s.pipes| && s.desk.Usable()
  {
    Release(s.(pipes := s.pipes[i := s.pipes[i].(pc := Done)]))
  }

  ghost function Apply(settings: Settings, s: System, a: Action): System
    requires Enabled(s, a)
  {
    match a
    case Assign(i) => AssignStep(s, i)
    case Begin(i) => BeginStep(s, i)
    case Finish(i, result) => FinishStep(s, i, result)
    case Recover(i, jitter) => RecoverStep(settings, s, i, jitter)
    case Respawn(i) => RespawnStep(s, i)
    case Judge(i, variance) => JudgeStep(s, i, variance)
    case Wake(i) => WakeStep(s, i)
  }

  ghost predicate StepBy(settings: Settings, s: System, a: Action, s': System) {
    Enabled(s, a) && s' == Apply(settings, s, a)
  }

  ghost predicate Next(settings: Settings, s: System, s': System) {
    exists a :: StepBy(settings, s, a, s')
  }

  // ---- Where runs begin ----

  /** Distinct ids, and every dependency is planned earlier. */
  ghost predicate ValidPlan(plan: seq<TaskSpec>) {
    && Distinct(Ids(plan))
    && forall i, k :: 0 <= i < |plan| && 0 <= k < |plan[i].dependencies| ==>
         plan[i].dependencies[k] in Ids(plan[..i])
  }

  function AddFirst(s: Store, plan: seq<TaskSpec>, n: nat): Store
    requires n <= |plan|
  {
    if n == 0 then s else AddFirst(s, plan, n - 1).AddTask(NewTask(plan[n - 1]))
  }

  function AddAll(s: Store, plan: seq<TaskSpec>): Store {
    AddFirst(s, plan, |plan|)
  }

  /** A started-up orchestrator that has not seen a workload. */
  ghost predicate FreshStart(pool: Store, broker: Broker<Message>) {
    && FreshPool(pool) && pool.tasks == map[] && pool.taskOrder == []
    && pool.history == [] && pool.failureLogs == [] && pool.totalRetries == 0
    && Desk(pool, broker, map[], [], []).Usable()
  }

  /** The system after all tasks are stored and before anything is scheduled. */
  function Loaded(pool: Store, broker: Broker<Message>, plan: seq<TaskSpec>): System {
    System(Desk(AddAll(pool, plan), broker, map[], plan, []), [], [])
  }

  /** `run_workload`: store the plan, schedule it, spawn what is queued. */
  ghost predicate Initial(s: System, pool: Store, broker: Broker<Message>, plan: seq<TaskSpec>) {
    FreshStart(pool, broker) && ValidPlan(plan) && s == Release(Loaded(pool, broker, plan))
  }

  /** Every state but the first comes from the one before it by a step. */
  ghost predicate IsPath(settings: Settings, run: seq<System>) {
    forall k :: 0 <= k < |run| - 1 ==> Next(settings, run[k], run[k + 1])
  }

  /** A finite run: an initial state followed by steps. */
  ghost predicate IsRun(
    settings: Settings, pool: Store, broker: Broker<Message>, plan: seq<TaskSpec>, run: seq<System>)
  {
    |run| > 0 && Initial(run[0], pool, broker, plan) && IsPath(settings, run)
  }

  /** What holds at the start and is passed on by every step holds all along. */
  lemma {:induction false} HoldsAlong(run: seq<System>, inv: System -> bool, from: nat, k: nat)
    requires from <= k < |run| && inv(run[from])
    requires forall j :: from <= j < |run| - 1 && inv(run[j]) ==> inv(run[j + 1])
    ensures inv(run[k])
  {
    if from == k {
    } else {
      HoldsAlong(run, inv, from, k - 1);
      assert inv(run[k - 1 + 1]);
    }
  }
}
