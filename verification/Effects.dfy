/**
 What each action writes, value by value, and that it writes nothing else: the
 whole state afterwards in terms of the state before.
 */
module Effects {
  import opened Collections
  import opened Models
  import opened TaskStores
  import opened LoadBalancers
  import opened RetryAgents
  import opened Critics
  import opened Pipelines
  import opened Lifecycle

  /** Coroutine `i` is at `pc`, the event is reported, the store is `store`, and everything else is as it was. */
  ghost predicate Left(s: System, r: System, i: nat, pc: Pc, event: Event, store: Store)
    requires i < |s.pipes|
  {
    && r.pipes == s.pipes[i := Pipe(s.pipes[i].task, pc)]
    && r.log == s.log + [event]
    && r.desk == s.desk.(store := store)
  }

  /** The store with one task's record replaced. */
  function WithTask(s: Store, id: string, t: Task): Store {
    s.(tasks := s.tasks[id := t])
  }

  // ---- Assigning ----

  /** `w` is the first of the available workers of a type with the least load. */
  ghost predicate IsFirstLeast(s: Store, w: string, workerType: string, i: nat) {
    && i < |s.workerOrder| && s.workerOrder[i] == w && s.Available(w, workerType)
    && (forall v :: v in s.workerOrder && s.Available(v, workerType) ==>
          s.workers[w].loadPct <= s.workers[v].loadPct)
    && forall j :: 0 <= j < i && s.Available(s.workerOrder[j], workerType) ==>
         s.workers[s.workerOrder[j]].loadPct > s.workers[w].loadPct
  }

  lemma ChosenIsFirstLeast(s: Store, workerType: string) returns (i: nat)
    requires s.LeastLoaded(s.workerOrder, workerType).Some?
    ensures IsFirstLeast(s, s.LeastLoaded(s.workerOrder, workerType).value, workerType, i)
  {
    i := LeastLoadedIsFirst(s, s.workerOrder, workerType);
  }

  /** An assignment takes the first least loaded worker of the type, and 25 percent of it. */
  lemma AssignWrites(s: System, i: nat) returns (w: string, n: nat)
    requires Shape(s) && i < |s.pipes| && (s.pipes[i].pc.Start? || s.pipes[i].pc.Waiting?)
    requires Staffed(s.Store(), s.Tasks()[s.pipes[i].task].spec)
    ensures var id := s.pipes[i].task;
            var spec := s.Tasks()[id].spec;
            && IsFirstLeast(s.Store(), w, if spec.partition == "io" then "io" else "cpu", n)
            && var worker := s.Store().workers[w];
               var engaged := worker.(
                 status := Busy, currentTask := Some(id),
                 loadPct := if worker.loadPct + 25 <= 100 then worker.loadPct + 25 else 100);
               Left(s, AssignStep(s, i), i, Assigned(w), TaskAssigned(id, w, worker.loadPct + 25 > 100),
                    WithTask(s.Store(), id, s.Tasks()[id].(status := ASSIGNED, assignedWorker := Some(w)))
                    .(workers := s.Store().workers[w := engaged]))
  {
    var id := s.pipes[i].task;
    StaffedMeansChoice(s.Store(), s.Tasks()[id].spec);
    w := Choice(s.Store(), s.Tasks()[id].spec).value;
    n := ChosenIsFirstLeast(s.Store(), WorkerTypeFor(s.Tasks()[id].spec.partition));
  }

  /** Without a worker of the type the coroutine waits once and then gives up, and nothing is written. */
  lemma AssignWaits(s: System, i: nat)
    requires Shape(s) && i < |s.pipes| && (s.pipes[i].pc.Start? || s.pipes[i].pc.Waiting?)
    requires !Staffed(s.Store(), s.Tasks()[s.pipes[i].task].spec)
    ensures var id := s.pipes[i].task;
            if s.pipes[i].pc.Start? then Left(s, AssignStep(s, i), i, Waiting, WorkerUnavailable(id), s.Store())
            else Left(s, AssignStep(s, i), i, Done, TaskDeferred(id), s.Store())
  {
    StaffedMeansChoice(s.Store(), s.Tasks()[s.pipes[i].task].spec);
  }

  // ---- Running ----

  lemma BeginWrites(s: System, i: nat)
    requires Shape(s) && i < |s.pipes| && s.pipes[i].pc.Assigned?
    ensures var id, w := s.pipes[i].task, s.pipes[i].pc.worker;
            Left(s, BeginStep(s, i), i, Running(w), TaskStarted(id, w),
                 WithTask(s.Store(), id, s.Tasks()[id].(status := RUNNING)))
  {
  }

  /** A worker handed back: idle, 25 percent less loaded, one outcome more. */
  function HandedBack(worker: WorkerStatus, success: bool): WorkerStatus {
    worker.(
      status := Idle, currentTask := None,
      loadPct := if worker.loadPct >= 25 then worker.loadPct - 25 else 0,
      tasksCompleted := worker.tasksCompleted + (if success then 1 else 0),
      tasksFailed := worker.tasksFailed + (if success then 0 else 1))
  }

  /**
   A completed execution leaves the worker's time and payload in the record, and
   an entry with the task, the worker and that time at the end of the history.
   */
  lemma CompletionWrites(s: System, i: nat, result: TaskResult)
    requires Shape(s) && i < |s.pipes| && s.pipes[i].pc.Running? && s.pipes[i].pc.worker in s.Store().workers
    requires !result.failed
    ensures var id, w := s.pipes[i].task, s.pipes[i].pc.worker;
            var worker := s.Store().workers[w];
            Left(s, FinishStep(s, i, result), i, Completed(result), TaskCompleted(id, w, worker.loadPct < 25),
                 WithTask(s.Store(), id,
                          s.Tasks()[id].(status := COMPLETED, executionTime := Some(result.executionTime),
                                         result := result.result))
                 .(workers := s.Store().workers[w := HandedBack(worker, true)],
                   history := s.Store().history + [ExecutionRecord(id, w, result.executionTime)]))
  {
  }

  /** A failed one leaves its time and error in the record and nothing in the history. */
  lemma FailureWrites(s: System, i: nat, result: TaskResult)
    requires Shape(s) && i < |s.pipes| && s.pipes[i].pc.Running? && s.pipes[i].pc.worker in s.Store().workers
    requires result.failed
    ensures var id, w := s.pipes[i].task, s.pipes[i].pc.worker;
            var worker := s.Store().workers[w];
            Left(s, FinishStep(s, i, result), i, Failed(result), TaskFailed(id, w, worker.loadPct < 25),
                 WithTask(s.Store(), id,
                          s.Tasks()[id].(status := FAILED, executionTime := Some(result.executionTime),
                                         errorMessage := result.error))
                 .(workers := s.Store().workers[w := HandedBack(worker, false)]))
  {
  }

  // ---- Retrying ----

  /** The failure as the log has it. */
  function Logged(id: string, retry: nat, result: TaskResult, failureType: FailureType): FailureLog {
    FailureLog(id, if result.error.None? || result.error.value == "" then "Unknown error" else result.error.value,
               failureType, retry, result.workerId)
  }

  /** Giving up: permanent, or as often retried as the limit says. */
  lemma DeadLetterWrites(settings: Settings, s: System, i: nat, jitter: real)
    requires Shape(s) && i < |s.pipes| && s.pipes[i].pc.Failed?
    ensures var id, result := s.pipes[i].task, s.pipes[i].pc.result;
            var t := s.Tasks()[id];
            var failureType := Classification(Logged(id, t.retryCount, result, Transient).error);
            var entry := Logged(id, t.retryCount, result, failureType);
            failureType == Permanent || t.retryCount >= settings.maxRetries ==>
              Left(s, RecoverStep(settings, s, i, jitter), i, Done, DeadLettered(id),
                   WithTask(s.Store(), id,
                            t.(status := FAILED, failureType := Some(failureType), errorMessage := Some(entry.error)))
                   .(failureLogs := s.Store().failureLogs + [entry]))
  {
  }

  /** Retrying: one more on both counters, no worker, and the delay of this retry to sleep. */
  lemma RetryWrites(settings: Settings, s: System, i: nat, jitter: real)
    requires Shape(s) && i < |s.pipes| && s.pipes[i].pc.Failed?
    ensures var id, result := s.pipes[i].task, s.pipes[i].pc.result;
            var t := s.Tasks()[id];
            var entry := Logged(id, t.retryCount, result, Transient);
            Classification(entry.error) == Transient && t.retryCount < settings.maxRetries ==>
              Left(s, RecoverStep(settings, s, i, jitter), i, Backoff(Delay(settings, t.retryCount, jitter)),
                   RetryScheduled(id),
                   WithTask(s.Store(), id,
                            t.(status := CREATED, retryCount := t.retryCount + 1, failureType := Some(Transient),
                               errorMessage := Some(entry.error), assignedWorker := None))
                   .(failureLogs := s.Store().failureLogs + [entry],
                     totalRetries := s.Store().totalRetries + 1))
  {
  }

  /** The retry itself: the coroutine ends, a new one for the same task begins, and nothing else happens. */
  lemma RespawnWrites(s: System, i: nat)
    requires i < |s.pipes| && s.pipes[i].pc.Backoff?
    ensures var r := RespawnStep(s, i);
            && r.desk == s.desk && r.log == s.log && |r.pipes| == |s.pipes| + 1
            && r.pipes[i] == Pipe(s.pipes[i].task, Done) && r.pipes[|s.pipes|] == Pipe(s.pipes[i].task, Start)
            && forall k :: 0 <= k < |s.pipes| && k != i ==> r.pipes[k] == s.pipes[k]
  {
  }

  // ---- Judging ----

  lemma MetSpelled(s: Store, spec: TaskSpec)
    ensures s.DependenciesMet(spec) <==>
            forall d :: d in spec.dependencies ==> d in s.tasks && s.tasks[d].status in {VALIDATED, STORED}
  {
    if forall d :: d in spec.dependencies ==> d in s.tasks && s.tasks[d].status in {VALIDATED, STORED} {
      assert forall k :: 0 <= k < |spec.dependencies| ==> spec.dependencies[k] in spec.dependencies;
    }
  }

  /** An accepted task becomes VALIDATED with its score, and a rejected one is left as it is. */
  lemma JudgeWrites(s: System, i: nat, variance: int)
    requires Shape(s) && i < |s.pipes| && s.pipes[i].pc.Completed? && IsVariance(variance)
    ensures var id, result := s.pipes[i].task, s.pipes[i].pc.result;
            var t := s.Tasks()[id];
            var payload := result.result;
            var output := payload.Some? && payload.value.Dictionary? && "output" in payload.value.keys;
            var score := 90 + variance - 5 * MarksReached(result.executionTime) - (if output then 0 else 10);
            if result.result.Some? && 0 < result.executionTime < 12000
               && (forall d :: d in t.spec.dependencies ==>
                     d in s.Tasks() && s.Tasks()[d].status in {VALIDATED, STORED})
            then Left(s, JudgeStep(s, i, variance), i, Judged, TaskValidated(id),
                      WithTask(s.Store(), id, t.(status := VALIDATED, qualityScore := Some(score))))
            else Left(s, JudgeStep(s, i, variance), i, Judged, ValidationFailed(id), s.Store())
  {
    var id, result := s.pipes[i].task, s.pipes[i].pc.result;
    var spec := s.Tasks()[id].spec;
    ScoreNeverDecides(s.Store(), spec, result, variance);
    MetSpelled(s.Store(), spec);
    if result.result.Some? && 0 < result.executionTime < 12000 {
      ScoreIsFullMarksLess(result, variance);
    }
  }
}
