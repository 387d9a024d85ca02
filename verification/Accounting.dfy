/** The counters of the store, the workers and the log agree in every reachable state. */
module Accounting {
  import opened Collections
  import opened Models
  import opened TaskStores
  import opened MemoryQueues
  import opened LoadBalancers
  import opened Schedulers
  import opened Pipelines
  import opened Lifecycle

  // ---- What is counted ----

  function RetriesOf(t: Task): nat { t.retryCount }

  function CompletedBy(w: WorkerStatus): nat { w.tasksCompleted }

  function FailedBy(w: WorkerStatus): nat { w.tasksFailed }

  function DeadLetterCount(e: Event): nat { if e.DeadLettered? then 1 else 0 }

  function AssignedTo(w: string): Event -> nat {
    (e: Event) => if e.TaskAssigned? && e.worker == w then 1 else 0
  }

  /** Assignments to `w` whose load increment was cut off at 100. */
  function SaturatedAt(w: string): Event -> nat {
    (e: Event) => if e.TaskAssigned? && e.worker == w && e.saturated then 1 else 0
  }

  /** Releases of `w` whose load decrement was cut off at 0. */
  function FlooredAt(w: string): Event -> nat {
    (e: Event) => if (e.TaskFailed? || e.TaskCompleted?) && e.worker == w && e.floored then 1 else 0
  }

  /** Assigned to `w` and not released yet. */
  function InFlight(w: string): Pipe -> nat {
    (p: Pipe) => if (p.pc.Assigned? || p.pc.Running?) && p.pc.worker == w then 1 else 0
  }

  /** Released after a failure that the retry agent has not seen yet. */
  function AwaitingRetryAgent(p: Pipe): nat { if p.pc.Failed? then 1 else 0 }

  function Load(s: System, w: string): int
    requires w in s.Store().workers
  {
    s.Store().workers[w].loadPct
  }

  function OnWorker(s: System, w: string): nat { Sum(s.pipes, InFlight(w)) }

  /** Clamped assignments not yet absorbed by clamped releases. */
  function Debt(s: System, w: string): int {
    Sum(s.log, SaturatedAt(w)) - Sum(s.log, FlooredAt(w))
  }

  // ---- The books ----

  ghost predicate RetryBooks(settings: Settings, s: System) {
    && s.Store().WellFormed()
    && (forall id :: id in s.Tasks() ==> s.Tasks()[id].retryCount <= RetryBudget(settings))
    && s.Store().totalRetries == Sum(ValuesOf(s.Store().taskOrder, s.Tasks()), RetriesOf)
    && |s.Store().failureLogs| == s.Store().totalRetries + Sum(s.log, DeadLetterCount)
  }

  ghost predicate OutcomeBooks(s: System) {
    && s.Store().WellFormed()
    && var workers := ValuesOf(s.Store().workerOrder, s.Store().workers);
       && Sum(workers, CompletedBy) == |s.Store().history|
       && Sum(workers, FailedBy) == |s.Store().failureLogs| + Sum(s.pipes, AwaitingRetryAgent)
  }

  /**
   One worker's books: `taken` assignments so far, `inFlight` of them not yet
   released, `saturated` and `floored` clamped load updates.
   */
  ghost predicate Balances(worker: WorkerStatus, taken: nat, inFlight: nat, saturated: nat, floored: nat) {
    && taken == worker.tasksCompleted + worker.tasksFailed + inFlight
    && worker.loadPct == 25 * (inFlight - (saturated - floored))
    && 0 <= worker.loadPct <= 100 && saturated >= floored
    && (worker.status == Busy ==> inFlight > 0)
  }

  ghost predicate WorkerBooks(s: System, w: string) {
    w in s.Store().workers &&
    Balances(s.Store().workers[w], Sum(s.log, AssignedTo(w)), OnWorker(s, w),
             Sum(s.log, SaturatedAt(w)), Sum(s.log, FlooredAt(w)))
  }

  lemma EngageBalances(worker: WorkerStatus, id: string, taken: nat, inFlight: nat, saturated: nat, floored: nat)
    requires Balances(worker, taken, inFlight, saturated, floored)
    ensures Balances(Engage(worker, id), taken + 1, inFlight + 1,
                     saturated + if worker.loadPct + LOAD_STEP > FULL_LOAD then 1 else 0, floored)
  {
  }

  lemma DisengageBalances(worker: WorkerStatus, success: bool, taken: nat, inFlight: nat, saturated: nat, floored: nat)
    requires Balances(worker, taken, inFlight, saturated, floored) && inFlight > 0
    ensures Balances(Disengage(worker, success), taken, inFlight - 1, saturated,
                     floored + if worker.loadPct - LOAD_STEP < 0 then 1 else 0)
  {
  }

  /** Coroutines occupy registered workers of the type their task needs. */
  ghost predicate Housed(s: System, k: nat) {
    k < |s.pipes| && s.pipes[k].task in s.Tasks() &&
    ((s.pipes[k].pc.Assigned? || s.pipes[k].pc.Running?) ==>
      && s.pipes[k].pc.worker in s.Store().workers
      && s.Store().workers[s.pipes[k].pc.worker].workerType == WorkerTypeFor(s.Tasks()[s.pipes[k].task].spec.partition))
  }

  ghost predicate AllWorkerBooks(s: System) {
    forall w :: w in s.Store().workers ==> WorkerBooks(s, w)
  }

  ghost predicate AllHoused(s: System) {
    forall k :: 0 <= k < |s.pipes| ==> Housed(s, k)
  }

  ghost predicate Books(settings: Settings, s: System) {
    Shape(s) && RetryBooks(settings, s) && OutcomeBooks(s) && AllWorkerBooks(s) && AllHoused(s)
  }

  // ---- One row of the table ----

  /** Sums over log and coroutines after one row. */
  lemma AdvanceTally(s: System, i: nat, pc: Pc, store: Store, event: Event, w: string)
    requires i < |s.pipes|
    ensures var s' := Advance(s, i, pc, store, event);
            && Sum(s'.log, AssignedTo(w)) == Sum(s.log, AssignedTo(w)) + AssignedTo(w)(event)
            && Sum(s'.log, SaturatedAt(w)) == Sum(s.log, SaturatedAt(w)) + SaturatedAt(w)(event)
            && Sum(s'.log, FlooredAt(w)) == Sum(s.log, FlooredAt(w)) + FlooredAt(w)(event)
            && OnWorker(s', w) + InFlight(w)(s.pipes[i]) == OnWorker(s, w) + InFlight(w)(Pipe(s.pipes[i].task, pc))
            && InFlight(w)(s.pipes[i]) <= OnWorker(s, w)
  {
    SumSnoc(s.log, event, AssignedTo(w));
    SumSnoc(s.log, event, SaturatedAt(w));
    SumSnoc(s.log, event, FlooredAt(w));
    SumUpdate(s.pipes, i, Pipe(s.pipes[i].task, pc), InFlight(w));
  }

  lemma AdvanceKeepsHoused(s: System, i: nat, pc: Pc, store: Store, status: TaskStatus, event: Event)
    requires Shape(s) && i < |s.pipes| && Changes(s.Store(), store, s.pipes[i].task, status)
    requires forall k :: 0 <= k < |s.pipes| ==> Housed(s, k)
    requires pc.Assigned? || pc.Running? ==>
               && pc.worker in s.Store().workers
               && s.Store().workers[pc.worker].workerType == WorkerTypeFor(s.Tasks()[s.pipes[i].task].spec.partition)
    ensures forall k :: 0 <= k < |s.pipes| ==> Housed(Advance(s, i, pc, store, event), k)
  {
    forall k | 0 <= k < |s.pipes|
      ensures Housed(Advance(s, i, pc, store, event), k)
    {
      assert Housed(s, k);
    }
  }

  /** Retry bookkeeping of steps that neither retry nor dead-letter. */
  lemma AdvanceKeepsRetryBooks(settings: Settings, s: System, i: nat, pc: Pc, store: Store, event: Event)
    requires s.Store().WellFormed() && store.WellFormed() && RetryBooks(settings, s) && i < |s.pipes|
    requires store.taskOrder == s.Store().taskOrder && store.tasks.Keys == s.Tasks().Keys
    requires forall id :: id in s.Tasks() ==> store.tasks[id].retryCount == s.Tasks()[id].retryCount
    requires store.totalRetries == s.Store().totalRetries && store.failureLogs == s.Store().failureLogs
    requires !event.DeadLettered?
    ensures RetryBooks(settings, Advance(s, i, pc, store, event))
  {
    SumSnoc(s.log, event, DeadLetterCount);
    SumPlacewise(ValuesOf(store.taskOrder, s.Tasks()), ValuesOf(store.taskOrder, store.tasks), RetriesOf);
  }

  // ---- Assignment ----

  /** The chosen worker's books after an assignment. */
  lemma EngagedBooks(s: System, i: nat, store: Store, w: string)
    requires i < |s.pipes| && (s.pipes[i].pc.Start? || s.pipes[i].pc.Waiting?)
    requires w in s.Store().workers && WorkerBooks(s, w) && w in store.workers
    requires store.workers[w] == Engage(s.Store().workers[w], s.pipes[i].task)
    ensures WorkerBooks(
              Advance(s, i, Assigned(w), store,
                      TaskAssigned(s.pipes[i].task, w, s.Store().workers[w].loadPct + LOAD_STEP > FULL_LOAD)), w)
  {
    AdvanceTally(s, i, Assigned(w), store,
                 TaskAssigned(s.pipes[i].task, w, s.Store().workers[w].loadPct + LOAD_STEP > FULL_LOAD), w);
    EngageBalances(s.Store().workers[w], s.pipes[i].task, Sum(s.log, AssignedTo(w)), OnWorker(s, w),
                   Sum(s.log, SaturatedAt(w)), Sum(s.log, FlooredAt(w)));
  }

  /** A worker the step does not concern keeps its books. */
  lemma BystanderBooks(s: System, i: nat, pc: Pc, store: Store, event: Event, w: string)
    requires i < |s.pipes| && w in s.Store().workers && WorkerBooks(s, w)
    requires w in store.workers && store.workers[w] == s.Store().workers[w]
    requires AssignedTo(w)(event) == SaturatedAt(w)(event) == FlooredAt(w)(event) == 0
    requires InFlight(w)(s.pipes[i]) == InFlight(w)(Pipe(s.pipes[i].task, pc))
    ensures WorkerBooks(Advance(s, i, pc, store, event), w)
  {
    AdvanceTally(s, i, pc, store, event, w);
  }

  lemma AssignKeepsWorker(s: System, i: nat, w: string)
    requires Shape(s) && i < |s.pipes| && (s.pipes[i].pc.Start? || s.pipes[i].pc.Waiting?)
    requires w in s.Store().workers && WorkerBooks(s, w)
    ensures w in AssignStep(s, i).Store().workers && WorkerBooks(AssignStep(s, i), w)
  {
    var pc, store, status, event := AssignShape(s, i);
    if pc == Assigned(w) {
      EngagedBooks(s, i, store, w);
    } else {
      BystanderBooks(s, i, pc, store, event, w);
    }
  }

  /** Changing a worker's load, state and task leaves the outcome totals alone. */
  lemma EngageKeepsTotals(order: seq<string>, workers: map<string, WorkerStatus>, w: string, id: string)
    requires Distinct(order) && w in order && forall k :: k in order ==> k in workers
    ensures var after := ValuesOf(order, workers[w := Engage(workers[w], id)]);
            && Sum(after, CompletedBy) == Sum(ValuesOf(order, workers), CompletedBy)
            && Sum(after, FailedBy) == Sum(ValuesOf(order, workers), FailedBy)
  {
    SumValuesUpdate(order, workers, w, Engage(workers[w], id), CompletedBy);
    SumValuesUpdate(order, workers, w, Engage(workers[w], id), FailedBy);
  }

  lemma AssignKeepsOutcomes(s: System, i: nat)
    requires Shape(s) && i < |s.pipes| && (s.pipes[i].pc.Start? || s.pipes[i].pc.Waiting?)
    requires OutcomeBooks(s)
    ensures AssignStep(s, i).Store().WellFormed() && OutcomeBooks(AssignStep(s, i))
  {
    var pc, store, status, event := AssignShape(s, i);
    SumUpdate(s.pipes, i, Pipe(s.pipes[i].task, pc), AwaitingRetryAgent);
    if pc.Assigned? {
      EngageKeepsTotals(s.Store().workerOrder, s.Store().workers, pc.worker, s.pipes[i].task);
    }
  }

  lemma AssignKeepsRetryBooks(settings: Settings, s: System, i: nat)
    requires Shape(s) && RetryBooks(settings, s) && i < |s.pipes| && (s.pipes[i].pc.Start? || s.pipes[i].pc.Waiting?)
    ensures AssignStep(s, i).Store().WellFormed() && RetryBooks(settings, AssignStep(s, i))
  {
    var pc, store, status, event := AssignShape(s, i);
    var id := s.pipes[i].task;
    assert AssignStep(s, i).Tasks()[id].retryCount == s.Tasks()[id].retryCount;
    AdvanceKeepsRetryBooks(settings, s, i, pc, store, event);
  }

  lemma AssignKeepsHoused(s: System, i: nat)
    requires Shape(s) && i < |s.pipes| && (s.pipes[i].pc.Start? || s.pipes[i].pc.Waiting?)
    requires forall k :: 0 <= k < |s.pipes| ==> Housed(s, k)
    ensures Shape(AssignStep(s, i))
    ensures forall k :: 0 <= k < |s.pipes| ==> Housed(AssignStep(s, i), k)
  {
    var pc, store, status, event := AssignShape(s, i);
    AdvanceKeepsShape(s, i, pc, store, status, event);
    AdvanceKeepsHoused(s, i, pc, store, status, event);
  }

  lemma AssignKeepsBooks(settings: Settings, s: System, i: nat)
    requires Books(settings, s) && i < |s.pipes| && (s.pipes[i].pc.Start? || s.pipes[i].pc.Waiting?)
    ensures Books(settings, AssignStep(s, i))
  {
    AssignKeepsHoused(s, i);
    AssignKeepsRetryBooks(settings, s, i);
    AssignKeepsOutcomes(s, i);
    forall w | w in AssignStep(s, i).Store().workers
      ensures WorkerBooks(AssignStep(s, i), w)
    {
      AssignKeepsWorker(s, i, w);
    }
  }

  // ---- Release ----

  /** The released worker's books. */
  lemma DisengagedBooks(s: System, i: nat, pc: Pc, store: Store, event: Event, success: bool)
    requires i < |s.pipes| && s.pipes[i].pc.Running? && WorkerBooks(s, s.pipes[i].pc.worker)
    requires var w := s.pipes[i].pc.worker;
             && w in store.workers && store.workers[w] == Disengage(s.Store().workers[w], success)
             && (event.TaskFailed? || event.TaskCompleted?) && event.worker == w
             && event.floored == (s.Store().workers[w].loadPct - LOAD_STEP < 0)
    requires !pc.Assigned? && !pc.Running?
    ensures WorkerBooks(Advance(s, i, pc, store, event), s.pipes[i].pc.worker)
  {
    var w := s.pipes[i].pc.worker;
    AdvanceTally(s, i, pc, store, event, w);
    DisengageBalances(s.Store().workers[w], success, Sum(s.log, AssignedTo(w)), OnWorker(s, w),
                      Sum(s.log, SaturatedAt(w)), Sum(s.log, FlooredAt(w)));
  }

  lemma FinishKeepsWorker(s: System, i: nat, result: TaskResult, w: string)
    requires Shape(s) && i < |s.pipes| && s.pipes[i].pc.Running? && Housed(s, i)
    requires w in s.Store().workers && WorkerBooks(s, w)
    ensures w in FinishStep(s, i, result).Store().workers && WorkerBooks(FinishStep(s, i, result), w)
  {
    var pc, store, status, event := FinishShape(s, i, result);
    if w == s.pipes[i].pc.worker {
      DisengagedBooks(s, i, pc, store, event, !result.failed);
    } else {
      BystanderBooks(s, i, pc, store, event, w);
    }
  }

  lemma FinishKeepsOutcomes(s: System, i: nat, result: TaskResult)
    requires Shape(s) && i < |s.pipes| && s.pipes[i].pc.Running? && Housed(s, i) && OutcomeBooks(s)
    ensures FinishStep(s, i, result).Store().WellFormed() && OutcomeBooks(FinishStep(s, i, result))
  {
    var pc, store, status, event := FinishShape(s, i, result);
    var w := s.pipes[i].pc.worker;
    var released := Disengage(s.Store().workers[w], !result.failed);
    SumValuesUpdate(s.Store().workerOrder, s.Store().workers, w, released, CompletedBy);
    SumValuesUpdate(s.Store().workerOrder, s.Store().workers, w, released, FailedBy);
    SumUpdate(s.pipes, i, Pipe(s.pipes[i].task, pc), AwaitingRetryAgent);
  }

  lemma FinishKeepsBooks(settings: Settings, s: System, i: nat, result: TaskResult)
    requires Books(settings, s) && i < |s.pipes| && s.pipes[i].pc.Running?
    ensures Books(settings, FinishStep(s, i, result))
  {
    var pc, store, status, event := FinishShape(s, i, result);
    AdvanceKeepsShape(s, i, pc, store, status, event);
    AdvanceKeepsRetryBooks(settings, s, i, pc, store, event);
    FinishKeepsOutcomes(s, i, result);
    AdvanceKeepsHoused(s, i, pc, store, status, event);
    forall w | w in store.workers
      ensures WorkerBooks(FinishStep(s, i, result), w)
    {
      FinishKeepsWorker(s, i, result, w);
    }
  }

  // ---- Begin, judge and recover: no worker changes, nobody is assigned or released ----

  lemma QuietKeepsBooks(settings: Settings, s: System, i: nat, pc: Pc, store: Store, status: TaskStatus, event: Event)
    requires Books(settings, s) && i < |s.pipes| && Changes(s.Store(), store, s.pipes[i].task, status)
    requires store.workers == s.Store().workers
    requires !event.TaskAssigned? && !event.TaskFailed? && !event.TaskCompleted?
    requires forall w :: InFlight(w)(s.pipes[i]) == InFlight(w)(Pipe(s.pipes[i].task, pc))
    requires pc.Assigned? || pc.Running? ==>
               (s.pipes[i].pc.Assigned? || s.pipes[i].pc.Running?) && s.pipes[i].pc.worker == pc.worker
    requires RetryBooks(settings, Advance(s, i, pc, store, event)) && OutcomeBooks(Advance(s, i, pc, store, event))
    ensures Books(settings, Advance(s, i, pc, store, event))
  {
    AdvanceKeepsShape(s, i, pc, store, status, event);
    assert Housed(s, i);
    AdvanceKeepsHoused(s, i, pc, store, status, event);
    forall w | w in store.workers
      ensures WorkerBooks(Advance(s, i, pc, store, event), w)
    {
      BystanderBooks(s, i, pc, store, event, w);
    }
  }

  lemma BeginKeepsBooks(settings: Settings, s: System, i: nat)
    requires Books(settings, s) && i < |s.pipes| && s.pipes[i].pc.Assigned?
    ensures Books(settings, BeginStep(s, i))
  {
    var pc, store, status, event := BeginShape(s, i);
    AdvanceKeepsShape(s, i, pc, store, status, event);
    AdvanceKeepsRetryBooks(settings, s, i, pc, store, event);
    SumUpdate(s.pipes, i, Pipe(s.pipes[i].task, pc), AwaitingRetryAgent);
    QuietKeepsBooks(settings, s, i, pc, store, status, event);
  }

  lemma JudgeKeepsBooks(settings: Settings, s: System, i: nat, variance: int)
    requires Books(settings, s) && i < |s.pipes| && s.pipes[i].pc.Completed?
    ensures Books(settings, JudgeStep(s, i, variance))
  {
    var pc, store, status, event := JudgeShape(s, i, variance);
    AdvanceKeepsShape(s, i, pc, store, status, event);
    AdvanceKeepsRetryBooks(settings, s, i, pc, store, event);
    SumUpdate(s.pipes, i, Pipe(s.pipes[i].task, pc), AwaitingRetryAgent);
    QuietKeepsBooks(settings, s, i, pc, store, status, event);
  }

  /** One failure is logged, and either one retry is counted, for the task and overall, or one dead letter. */
  lemma RecoverEntries(settings: Settings, s: System, i: nat, jitter: real) returns (event: Event, retried: Task)
    requires Shape(s) && i < |s.pipes| && s.pipes[i].pc.Failed?
    ensures var id, r := s.pipes[i].task, RecoverStep(settings, s, i, jitter);
            && r.log == s.log + [event] && r.Store().taskOrder == s.Store().taskOrder
            && r.Tasks() == s.Tasks()[id := retried] && r.Store().WellFormed()
            && |r.Store().failureLogs| == |s.Store().failureLogs| + 1
            && var granted := if event.DeadLettered? then 0 else 1;
               && r.Store().totalRetries == s.Store().totalRetries + granted
               && retried.retryCount == s.Tasks()[id].retryCount + granted
               && (granted == 1 ==> retried.retryCount <= RetryBudget(settings))
  {
    var r := RecoverStep(settings, s, i, jitter);
    event, retried := r.log[|s.log|], r.Tasks()[s.pipes[i].task];
  }

  lemma RecoverKeepsRetryBooks(settings: Settings, s: System, i: nat, jitter: real)
    requires Shape(s) && RetryBooks(settings, s) && i < |s.pipes| && s.pipes[i].pc.Failed?
    ensures RecoverStep(settings, s, i, jitter).Store().WellFormed()
    ensures RetryBooks(settings, RecoverStep(settings, s, i, jitter))
  {
    var id := s.pipes[i].task;
    var event, retried := RecoverEntries(settings, s, i, jitter);
    SumSnoc(s.log, event, DeadLetterCount);
    SumValuesUpdate(s.Store().taskOrder, s.Tasks(), id, retried, RetriesOf);
  }

  lemma RecoverKeepsBooks(settings: Settings, s: System, i: nat, jitter: real)
    requires Books(settings, s) && i < |s.pipes| && s.pipes[i].pc.Failed?
    ensures Books(settings, RecoverStep(settings, s, i, jitter))
  {
    var pc, store, status, event := RecoverShape(settings, s, i, jitter);
    RecoverKeepsRetryBooks(settings, s, i, jitter);
    SumUpdate(s.pipes, i, Pipe(s.pipes[i].task, pc), AwaitingRetryAgent);
    QuietKeepsBooks(settings, s, i, pc, store, status, event);
  }

  // ---- Respawning, ending, scheduling ----

  /** Coroutines that are neither on a worker nor waiting for the retry agent may come and go. */
  lemma UncountedPipes(s: System, s': System, w: string)
    requires w in s.Store().workers && WorkerBooks(s, w)
    requires s'.log == s.log && s'.Store().workers == s.Store().workers
    requires OnWorker(s', w) == OnWorker(s, w)
    ensures WorkerBooks(s', w)
  {
  }

  predicate Uncounted(p: Pipe) { p.pc.Start? || p.pc.Done? || p.pc.Backoff? || p.pc.Judged? }

  lemma EditUncounted(pipes: seq<Pipe>, i: nat, x: Pipe, more: seq<Pipe>, f: Pipe -> nat)
    requires i < |pipes| && f(pipes[i]) == f(x) == 0 && forall p :: p in more ==> f(p) == 0
    ensures Sum(pipes[i := x] + more, f) == Sum(pipes, f)
  {
    SumEdit(pipes, i, x, more, f);
    SumZero(more, f);
  }

  lemma EndKeepsWorkers(s: System, i: nat, more: seq<Pipe>)
    requires AllWorkerBooks(s) && i < |s.pipes| && Uncounted(s.pipes[i])
    requires forall p :: p in more ==> p.pc.Start?
    ensures AllWorkerBooks(s.(pipes := s.pipes[i := Pipe(s.pipes[i].task, Done)] + more))
  {
    var x := Pipe(s.pipes[i].task, Done);
    var s' := s.(pipes := s.pipes[i := x] + more);
    forall w | w in s'.Store().workers
      ensures WorkerBooks(s', w)
    {
      EditUncounted(s.pipes, i, x, more, InFlight(w));
      UncountedPipes(s, s', w);
    }
  }

  /** A coroutine off the books ends, and others start. */
  lemma EndKeepsBooks(settings: Settings, s: System, i: nat, more: seq<Pipe>)
    requires Books(settings, s) && i < |s.pipes| && Uncounted(s.pipes[i])
    requires forall p :: p in more ==> p.pc.Start? && p.task in s.Tasks()
    ensures Books(settings, s.(pipes := s.pipes[i := Pipe(s.pipes[i].task, Done)] + more))
  {
    var x := Pipe(s.pipes[i].task, Done);
    var s' := s.(pipes := s.pipes[i := x] + more);
    EditUncounted(s.pipes, i, x, more, AwaitingRetryAgent);
    EndKeepsWorkers(s, i, more);
    forall k | 0 <= k < |s'.pipes|
      ensures s'.pipes[k].task in s'.Tasks() && Housed(s', k)
    {
      if k >= |s.pipes| {
        assert s'.pipes[k] in more;
      } else {
        assert Housed(s, k);
      }
    }
  }

  lemma ReleaseKeepsRetryBooks(settings: Settings, s: System)
    requires Shape(s) && PendingFresh(s) && RetryBooks(settings, s)
    ensures Release(s).Store().WellFormed() && RetryBooks(settings, Release(s))
  {
    ReleaseEffect(s);
    var s' := Release(s);
    assert s'.Store().WellFormed();
    SumPlacewise(ValuesOf(s.Store().taskOrder, s.Tasks()), ValuesOf(s.Store().taskOrder, s'.Tasks()), RetriesOf);
  }

  lemma ReleaseKeepsSums(s: System, f: Pipe -> nat)
    requires Shape(s) && PendingFresh(s) && forall p: Pipe :: p.pc.Start? ==> f(p) == 0
    ensures Sum(Release(s).pipes, f) == Sum(s.pipes, f)
  {
    ReleaseEffect(s);
    var more := Starts(Release(s).Store().TasksByStatus(QUEUED));
    SumAppend(s.pipes, more, f);
    SumZero(more, f);
  }

  lemma ReleaseKeepsWorkers(s: System, w: string)
    requires Shape(s) && PendingFresh(s) && w in s.Store().workers && WorkerBooks(s, w)
    ensures w in Release(s).Store().workers && WorkerBooks(Release(s), w)
  {
    ReleaseEffect(s);
    ReleaseKeepsSums(s, InFlight(w));
    UncountedPipes(s, Release(s), w);
  }

  lemma ReleaseKeepsHoused(s: System, k: nat)
    requires Shape(s) && PendingFresh(s) && k < |Release(s).pipes|
    requires forall m :: 0 <= m < |s.pipes| ==> Housed(s, m)
    ensures Release(s).pipes[k].task in Release(s).Tasks() && Housed(Release(s), k)
  {
    ReleaseEffect(s);
    SpawnedPipes(s, "");
    if k < |s.pipes| {
      assert Housed(s, k) && Release(s).pipes[k] == s.pipes[k];
    }
  }

  lemma ReleaseKeepsOutcomes(s: System)
    requires Shape(s) && PendingFresh(s) && OutcomeBooks(s)
    ensures Release(s).Store().WellFormed() && OutcomeBooks(Release(s))
  {
    ReleaseEffect(s);
    ReleaseKeepsSums(s, AwaitingRetryAgent);
  }

  lemma ReleaseKeepsBooks(settings: Settings, s: System)
    requires Books(settings, s) && PendingFresh(s)
    ensures Books(settings, Release(s))
  {
    ReleaseShape(s);
    ReleaseKeepsRetryBooks(settings, s);
    ReleaseKeepsOutcomes(s);
    ReleaseEffect(s);
    forall w | w in Release(s).Store().workers
      ensures WorkerBooks(Release(s), w)
    {
      ReleaseKeepsWorkers(s, w);
    }
    forall k | 0 <= k < |Release(s).pipes|
      ensures Housed(Release(s), k)
    {
      ReleaseKeepsHoused(s, k);
    }
  }

  // ---- Reachable states ----

  lemma WakeKeepsBooks(settings: Settings, s: System, i: nat)
    requires Books(settings, s) && PendingFresh(s) && i < |s.pipes| && s.pipes[i].pc.Judged?
    ensures Books(settings, WakeStep(s, i))
  {
    var x := Pipe(s.pipes[i].task, Done);
    assert s.pipes[i := x] == s.pipes[i := x] + [];
    EndKeepsBooks(settings, s, i, []);
    EndKeepsFresh(s, i);
    ReleaseKeepsBooks(settings, s.(pipes := s.pipes[i := x]));
  }

  lemma NextKeepsBooks(settings: Settings, s: System, a: Action)
    requires Books(settings, s) && Enabled(s, a) && PendingFresh(s)
    ensures Books(settings, Apply(settings, s, a))
  {
    match a {
      case Assign(i) => AssignKeepsBooks(settings, s, i);
      case Begin(i) => BeginKeepsBooks(settings, s, i);
      case Finish(i, result) => FinishKeepsBooks(settings, s, i, result);
      case Recover(i, jitter) => RecoverKeepsBooks(settings, s, i, jitter);
      case Respawn(i) => EndKeepsBooks(settings, s, i, [Pipe(s.pipes[i].task, Start)]);
      case Judge(i, variance) => JudgeKeepsBooks(settings, s, i, variance);
      case Wake(i) => WakeKeepsBooks(settings, s, i);
    }
  }

  lemma StepKeepsBooks(settings: Settings, s: System, s': System)
    requires Books(settings, s) && PendingFresh(s) && Next(settings, s, s')
    ensures Books(settings, s')
  {
    var a :| StepBy(settings, s, a, s');
    NextKeepsBooks(settings, s, a);
  }

  lemma FreshTotals(s: Store)
    requires FreshPool(s)
    ensures Sum(ValuesOf(s.workerOrder, s.workers), CompletedBy) == 0
    ensures Sum(ValuesOf(s.workerOrder, s.workers), FailedBy) == 0
  {
    assert forall k :: 0 <= k < |s.workerOrder| ==> s.workerOrder[k] in s.workers;
    SumZero(ValuesOf(s.workerOrder, s.workers), CompletedBy);
    SumZero(ValuesOf(s.workerOrder, s.workers), FailedBy);
  }

  lemma FreshRetries(s: System)
    requires Shape(s) && PendingFresh(s) && forall id :: id in s.Tasks() ==> Pending(s, id)
    ensures forall id :: id in s.Tasks() ==> s.Tasks()[id].retryCount == 0
    ensures Sum(ValuesOf(s.Store().taskOrder, s.Tasks()), RetriesOf) == 0
  {
    forall id | id in s.Tasks()
      ensures s.Tasks()[id].retryCount == 0
    {
      PendingSpec(s, id);
    }
    assert forall k :: 0 <= k < |s.Store().taskOrder| ==> s.Store().taskOrder[k] in s.Tasks();
    SumZero(ValuesOf(s.Store().taskOrder, s.Tasks()), RetriesOf);
  }

  /** Before anything has been scheduled all books are at zero. */
  lemma FreshBooks(settings: Settings, s: System)
    requires Shape(s) && PendingFresh(s) && FreshPool(s.Store()) && s.pipes == [] && s.log == []
    requires forall id :: id in s.Tasks() ==> Pending(s, id)
    requires s.Store().history == [] && s.Store().failureLogs == [] && s.Store().totalRetries == 0
    ensures Books(settings, s)
  {
    FreshRetries(s);
    FreshTotals(s.Store());
  }

  lemma InitialBooks(settings: Settings, s: System, pool: Store, broker: Broker<Message>, plan: seq<TaskSpec>)
    requires Initial(s, pool, broker, plan)
    ensures Books(settings, s)
  {
    var loaded := Loaded(pool, broker, plan);
    LoadedIsReady(pool, broker, plan);
    AddAllEffect(pool, plan);
    FreshBooks(settings, loaded);
    ReleaseKeepsBooks(settings, loaded);
  }

  lemma BooksPassOn(
    settings: Settings, pool: Store, broker: Broker<Message>, plan: seq<TaskSpec>, run: seq<System>, j: nat)
    requires IsRun(settings, pool, broker, plan, run) && j + 1 < |run| && Books(settings, run[j])
    ensures Books(settings, run[j + 1])
  {
    RunKeepsFresh(settings, pool, broker, plan, run, j);
    assert Next(settings, run[j], run[j + 1]);
    StepKeepsBooks(settings, run[j], run[j + 1]);
  }

  lemma RunKeepsBooks(
    settings: Settings, pool: Store, broker: Broker<Message>, plan: seq<TaskSpec>, run: seq<System>, k: nat)
    requires IsRun(settings, pool, broker, plan, run) && k < |run|
    ensures Books(settings, run[k])
  {
    InitialBooks(settings, run[0], pool, broker, plan);
    forall j | 0 <= j < |run| - 1 && Books(settings, run[j])
      ensures Books(settings, run[j + 1])
    {
      BooksPassOn(settings, pool, broker, plan, run, j);
    }
    HoldsAlong(run, (s: System) => Books(settings, s), 0, k);
  }

  // ---- What the books say ----

  /**
   Retry conservation in every reachable state, overlapping coroutines
   included: nobody is retried more often than allowed, the global counter is
   the sum of the tasks' counters, and every logged failure led either to a
   retry or to a dead letter.
   */
  lemma RetryConservation(
    settings: Settings, pool: Store, broker: Broker<Message>, plan: seq<TaskSpec>, run: seq<System>, k: nat)
    requires IsRun(settings, pool, broker, plan, run) && k < |run|
    ensures forall id :: id in run[k].Tasks() && run[k].Tasks()[id].retryCount > 0 ==>
              run[k].Tasks()[id].retryCount <= settings.maxRetries
    ensures run[k].Store().WellFormed()
    ensures run[k].Store().totalRetries == Sum(ValuesOf(run[k].Store().taskOrder, run[k].Tasks()), RetriesOf)
    ensures |run[k].Store().failureLogs| == run[k].Store().totalRetries + Sum(run[k].log, DeadLetterCount)
  {
    RunKeepsBooks(settings, pool, broker, plan, run, k);
  }

  /**
   Worker accounting: every assignment is completed, failed or in flight; the
   execution history has one record per completion; the failure log has one
   entry per failure, except for failures the retry agent has yet to see.
   */
  lemma WorkerAccounting(
    settings: Settings, pool: Store, broker: Broker<Message>, plan: seq<TaskSpec>, run: seq<System>, k: nat)
    requires IsRun(settings, pool, broker, plan, run) && k < |run|
    ensures forall w :: w in run[k].Store().workers ==>
              Sum(run[k].log, AssignedTo(w)) ==
              run[k].Store().workers[w].tasksCompleted + run[k].Store().workers[w].tasksFailed + OnWorker(run[k], w)
    ensures run[k].Store().WellFormed()
    ensures var workers := ValuesOf(run[k].Store().workerOrder, run[k].Store().workers);
            && Sum(workers, CompletedBy) == |run[k].Store().history|
            && Sum(workers, FailedBy) == |run[k].Store().failureLogs| + Sum(run[k].pipes, AwaitingRetryAgent)
  {
    RunKeepsBooks(settings, pool, broker, plan, run, k);
    forall w | w in run[k].Store().workers
      ensures Sum(run[k].log, AssignedTo(w)) ==
              run[k].Store().workers[w].tasksCompleted + run[k].Store().workers[w].tasksFailed + OnWorker(run[k], w)
    {
      assert WorkerBooks(run[k], w);
    }
  }

  /**
   The load law under saturation, for all interleavings: a load is 25 times the
   tasks in flight minus the debt, the debt counts clamped assignments that no
   clamped release has absorbed yet and is never negative, and a worker with
   nothing in flight shows no load and is not busy.
   */
  lemma LoadLaw(
    settings: Settings, pool: Store, broker: Broker<Message>, plan: seq<TaskSpec>, run: seq<System>, k: nat, w: string)
    requires IsRun(settings, pool, broker, plan, run) && k < |run| && w in run[k].Store().workers
    ensures Load(run[k], w) == 25 * (OnWorker(run[k], w) - Debt(run[k], w))
    ensures Debt(run[k], w) >= 0 && 0 <= Load(run[k], w) <= 100
    ensures OnWorker(run[k], w) == 0 ==>
              Load(run[k], w) == 0 && Debt(run[k], w) == 0 && run[k].Store().workers[w].status != Busy
  {
    RunKeepsBooks(settings, pool, broker, plan, run, k);
    assert WorkerBooks(run[k], w);
  }

  /** An assigned or running task sits on a registered worker of the type its partition asks for. */
  lemma TasksRunOnTheirType(
    settings: Settings, pool: Store, broker: Broker<Message>, plan: seq<TaskSpec>, run: seq<System>, k: nat, i: nat)
    requires IsRun(settings, pool, broker, plan, run) && k < |run|
    requires i < |run[k].pipes| && (run[k].pipes[i].pc.Assigned? || run[k].pipes[i].pc.Running?)
    ensures run[k].pipes[i].task in run[k].Tasks() && run[k].pipes[i].pc.worker in run[k].Store().workers
    ensures run[k].Store().workers[run[k].pipes[i].pc.worker].workerType ==
            if run[k].Tasks()[run[k].pipes[i].task].spec.partition == "io" then "io" else "cpu"
  {
    RunKeepsBooks(settings, pool, broker, plan, run, k);
    assert Housed(run[k], i);
  }
}
