/** What the store's histories and task records tell about a run. */
module Records {
  import opened Collections
  import opened Models
  import opened TaskStores
  import opened MemoryQueues
  import opened Schedulers
  import opened RetryAgents
  import opened Critics
  import opened Pipelines
  import opened Lifecycle
  import opened Exclusive

  // ---- The histories repeat the event log ----

  function IsCompletion(): Event -> bool { (e: Event) => e.TaskCompleted? }

  function IsDecision(): Event -> bool { (e: Event) => e.RetryScheduled? || e.DeadLettered? }

  /** The history has one record per completion, for its task and worker, in order. */
  ghost predicate HistoryRepeats(history: seq<ExecutionRecord>, completions: seq<Event>) {
    && |history| == |completions|
    && forall n :: 0 <= n < |history| ==>
         && completions[n].TaskCompleted?
         && history[n].taskId == completions[n].task && history[n].workerId == completions[n].worker
  }

  /** A decision fits its log entry: the failure is classified by its text, and given up exactly if it must be. */
  ghost predicate Justified(settings: Settings, l: FailureLog, decision: Event) {
    && (decision.RetryScheduled? || decision.DeadLettered?) && l.taskId == decision.task
    && (l.failureType == Permanent <==>
        MentionsAny(l.error, PERMANENT_PATTERNS) && !MentionsAny(l.error, TRANSIENT_PATTERNS))
    && (decision.DeadLettered? <==> l.failureType == Permanent || l.retryCount >= settings.maxRetries)
  }

  ghost predicate LogJustifies(settings: Settings, logs: seq<FailureLog>, decisions: seq<Event>) {
    |logs| == |decisions| && forall n :: 0 <= n < |logs| ==> Justified(settings, logs[n], decisions[n])
  }

  ghost predicate Mirrors(settings: Settings, s: System) {
    && HistoryRepeats(s.Store().history, Filter(s.log, IsCompletion()))
    && LogJustifies(settings, s.Store().failureLogs, Filter(s.log, IsDecision()))
  }

  lemma FilterOne<T>(x: T, keep: T -> bool)
    ensures Filter([x], keep) == if keep(x) then [x] else []
  {
    assert [x][1..] == [];
  }

  /** How one more event shows in a selection of the log. */
  lemma SelectionGrows(log: seq<Event>, e: Event, keep: Event -> bool)
    ensures Filter(log + [e], keep) == Filter(log, keep) + if keep(e) then [e] else []
  {
    FilterAppend(log, [e], keep);
    FilterOne(e, keep);
  }

  /** The histories before and after a step that reports one event. */
  ghost predicate Reports(settings: Settings, s: System, r: System, e: Event) {
    && r.log == s.log + [e]
    && (if e.TaskCompleted?
        then exists x :: r.Store().history == s.Store().history + [x] && x.taskId == e.task && x.workerId == e.worker
        else r.Store().history == s.Store().history)
    && (if e.RetryScheduled? || e.DeadLettered?
        then exists l :: r.Store().failureLogs == s.Store().failureLogs + [l] && Justified(settings, l, e)
        else r.Store().failureLogs == s.Store().failureLogs)
  }

  lemma HistoryGrows(settings: Settings, s: System, r: System, e: Event)
    requires Reports(settings, s, r, e) && HistoryRepeats(s.Store().history, Filter(s.log, IsCompletion()))
    ensures HistoryRepeats(r.Store().history, Filter(r.log, IsCompletion()))
  {
    SelectionGrows(s.log, e, IsCompletion());
  }

  lemma FailuresGrow(settings: Settings, s: System, r: System, e: Event)
    requires Reports(settings, s, r, e) && LogJustifies(settings, s.Store().failureLogs, Filter(s.log, IsDecision()))
    ensures LogJustifies(settings, r.Store().failureLogs, Filter(r.log, IsDecision()))
  {
    SelectionGrows(s.log, e, IsDecision());
  }

  lemma FinishReports(settings: Settings, s: System, i: nat, result: TaskResult)
    requires i < |s.pipes| && s.pipes[i].pc.Running?
    ensures var r := FinishStep(s, i, result); |r.log| == |s.log| + 1 && Reports(settings, s, r, r.log[|s.log|])
  {
    var r := FinishStep(s, i, result);
    var entry := ExecutionRecord(s.pipes[i].task, s.pipes[i].pc.worker, result.executionTime);
    assert !result.failed ==> r.Store().history == s.Store().history + [entry];
  }

  lemma RecoverReports(settings: Settings, s: System, i: nat, jitter: real)
    requires i < |s.pipes| && s.pipes[i].pc.Failed? && s.pipes[i].task in s.Tasks() && IsJitter(jitter)
    ensures var r := RecoverStep(settings, s, i, jitter);
            |r.log| == |s.log| + 1 && Reports(settings, s, r, r.log[|s.log|])
  {
    var id, result := s.pipes[i].task, s.pipes[i].pc.result;
    var retry := s.Tasks()[id].retryCount;
    DecisionIsRecorded(s.Store(), settings, id, retry, result, jitter);
    var error := ErrorText(result);
    var entry := FailureLog(id, error, Classification(error), retry, result.workerId);
    assert RecoverStep(settings, s, i, jitter).Store().failureLogs == s.Store().failureLogs + [entry];
  }

  lemma OthersReport(settings: Settings, s: System, a: Action)
    requires Enabled(s, a) && IsAdvance(a) && !a.Finish? && !a.Recover?
    ensures var r := Apply(settings, s, a); |r.log| == |s.log| + 1 && Reports(settings, s, r, r.log[|s.log|])
  {
  }

  lemma AdvanceMirrors(settings: Settings, s: System, a: Action)
    requires Enabled(s, a) && IsAdvance(a) && Mirrors(settings, s)
    ensures Mirrors(settings, Apply(settings, s, a))
  {
    var r := Apply(settings, s, a);
    match a {
      case Finish(i, result) => FinishReports(settings, s, i, result);
      case Recover(i, jitter) => RecoverReports(settings, s, i, jitter);
      case _ => OthersReport(settings, s, a);
    }
    HistoryGrows(settings, s, r, r.log[|s.log|]);
    FailuresGrow(settings, s, r, r.log[|s.log|]);
  }

  lemma ApplyMirrors(settings: Settings, s: System, a: Action)
    requires Shape(s) && PendingFresh(s) && Mirrors(settings, s) && Enabled(s, a)
    ensures Mirrors(settings, Apply(settings, s, a))
  {
    match a {
      case Wake(i) =>
        EndKeepsFresh(s, i);
        ReleaseEffect(s.(pipes := s.pipes[i := Pipe(s.pipes[i].task, Done)]));
      case Respawn(i) =>
      case _ => AdvanceMirrors(settings, s, a);
    }
  }

  lemma MirrorsPassOn(
    settings: Settings, pool: Store, broker: Broker<Message>, plan: seq<TaskSpec>, run: seq<System>, j: nat)
    requires IsRun(settings, pool, broker, plan, run) && j + 1 < |run| && Mirrors(settings, run[j])
    ensures Mirrors(settings, run[j + 1])
  {
    RunKeepsShape(settings, pool, broker, plan, run, j);
    RunKeepsFresh(settings, pool, broker, plan, run, j);
    assert Next(settings, run[j], run[j + 1]);
    var a :| StepBy(settings, run[j], a, run[j + 1]);
    ApplyMirrors(settings, run[j], a);
  }

  lemma InitialMirrors(settings: Settings, s: System, pool: Store, broker: Broker<Message>, plan: seq<TaskSpec>)
    requires Initial(s, pool, broker, plan)
    ensures Mirrors(settings, s)
  {
    AddAllEffect(pool, plan);
    LoadedIsReady(pool, broker, plan);
    ReleaseEffect(Loaded(pool, broker, plan));
  }

  lemma RunMirrors(
    settings: Settings, pool: Store, broker: Broker<Message>, plan: seq<TaskSpec>, run: seq<System>, k: nat)
    requires IsRun(settings, pool, broker, plan, run) && k < |run|
    ensures Mirrors(settings, run[k])
  {
    InitialMirrors(settings, run[0], pool, broker, plan);
    forall j | 0 <= j < |run| - 1 && Mirrors(settings, run[j])
      ensures Mirrors(settings, run[j + 1])
    {
      MirrorsPassOn(settings, pool, broker, plan, run, j);
    }
    HoldsAlong(run, (s: System) => Mirrors(settings, s), 0, k);
  }

  /**
   In every reachable state the execution history lists exactly the completions
   that were announced, task by task and worker by worker, in order.
   */
  lemma HistoryRepeatsTheLog(
    settings: Settings, pool: Store, broker: Broker<Message>, plan: seq<TaskSpec>, run: seq<System>, k: nat)
    requires IsRun(settings, pool, broker, plan, run) && k < |run|
    ensures HistoryRepeats(run[k].Store().history, Filter(run[k].log, IsCompletion()))
  {
    RunMirrors(settings, pool, broker, plan, run, k);
  }

  /**
   In every reachable state the failure log has one entry per decision of the
   retry agent, in order, and the n-th decision is a dead letter if and only if
   the n-th entry is a permanent failure or came after the last granted retry.
   */
  lemma DeadLettersAreJustified(
    settings: Settings, pool: Store, broker: Broker<Message>, plan: seq<TaskSpec>, run: seq<System>, k: nat)
    requires IsRun(settings, pool, broker, plan, run) && k < |run|
    ensures LogJustifies(settings, run[k].Store().failureLogs, Filter(run[k].log, IsDecision()))
  {
    RunMirrors(settings, pool, broker, plan, run, k);
  }

  // ---- A task's record is its coroutine's ----

  /** The record shows what a coroutine at this point has seen. */
  predicate Shown(pc: Pc, t: Task) {
    match pc
    case Assigned(w) => t.assignedWorker == Some(w)
    case Running(w) => t.assignedWorker == Some(w)
    case Failed(result) => t.executionTime == Some(result.executionTime) && t.errorMessage == result.error
    case Backoff(_) => t.assignedWorker == None && t.failureType == Some(Transient)
    case Completed(result) => t.executionTime == Some(result.executionTime) && t.result == result.result
    case _ => true
  }

  /** A validated record carries a result, a sane time and a passing score. */
  predicate WellValidated(t: Task) {
    t.status == VALIDATED ==>
      && t.result.Some? && t.executionTime.Some? && TimeValid(t.executionTime.value)
      && t.qualityScore.Some? && 68 <= t.qualityScore.value <= 100
  }

  ghost predicate RecordInv(s: System) {
    && (forall k :: 0 <= k < |s.pipes| ==>
          s.pipes[k].task in s.Tasks() && Shown(s.pipes[k].pc, s.Tasks()[s.pipes[k].task]))
    && forall id :: id in s.Tasks() ==> WellValidated(s.Tasks()[id])
  }

  /** What one step writes into its own task's record. */
  ghost predicate WritesOwn(s: System, i: nat, s': System)
    requires i < |s.pipes| && i < |s'.pipes| && s.pipes[i].task in s.Tasks()
  {
    var id := s.pipes[i].task;
    id in s'.Tasks() && Shown(s'.pipes[i].pc, s'.Tasks()[id]) && WellValidated(s'.Tasks()[id])
  }

  lemma AssignWrites(s: System, i: nat)
    requires Shape(s) && RecordInv(s) && i < |s.pipes| && (s.pipes[i].pc.Start? || s.pipes[i].pc.Waiting?)
    ensures WritesOwn(s, i, AssignStep(s, i))
  {
  }

  lemma BeginWrites(s: System, i: nat)
    requires Shape(s) && RecordInv(s) && i < |s.pipes| && s.pipes[i].pc.Assigned?
    ensures WritesOwn(s, i, BeginStep(s, i))
  {
    assert Shown(s.pipes[i].pc, s.Tasks()[s.pipes[i].task]);
  }

  lemma FinishWrites(s: System, i: nat, result: TaskResult)
    requires Shape(s) && i < |s.pipes| && s.pipes[i].pc.Running?
    ensures WritesOwn(s, i, FinishStep(s, i, result))
  {
  }

  lemma RecoverWrites(settings: Settings, s: System, i: nat, jitter: real)
    requires Shape(s) && i < |s.pipes| && s.pipes[i].pc.Failed?
    ensures WritesOwn(s, i, RecoverStep(settings, s, i, jitter))
  {
  }

  lemma JudgeWrites(s: System, i: nat, variance: int)
    requires Shape(s) && RecordInv(s) && InStep(s) && i < |s.pipes| && s.pipes[i].pc.Completed? && IsVariance(variance)
    ensures WritesOwn(s, i, JudgeStep(s, i, variance))
  {
    var t := s.Tasks()[s.pipes[i].task];
    assert Shown(s.pipes[i].pc, t) && Matches(s.pipes[i].pc, t.status);
    ScoreNeverDecides(s.Store(), t.spec, s.pipes[i].pc.result, variance);
  }

  lemma StepWrites(settings: Settings, s: System, a: Action)
    requires Shape(s) && RecordInv(s) && InStep(s) && Enabled(s, a) && IsAdvance(a)
    ensures WritesOwn(s, a.i, Apply(settings, s, a))
  {
    match a {
      case Assign(i) => AssignWrites(s, i);
      case Begin(i) => BeginWrites(s, i);
      case Finish(i, result) => FinishWrites(s, i, result);
      case Recover(i, jitter) => RecoverWrites(settings, s, i, jitter);
      case Judge(i, variance) => JudgeWrites(s, i, variance);
    }
  }

  lemma AdvanceKeepsRecords(
    s: System, i: nat, pc: Pc, store: Store, status: TaskStatus, event: Event)
    requires Shape(s) && NoOverlap(s) && RecordInv(s) && i < |s.pipes| && Live(s.pipes[i])
    requires PendingFresh(s) && StartedStaffed(s) && InStep(s)
    requires Changes(s.Store(), store, s.pipes[i].task, status)
    requires WritesOwn(s, i, Advance(s, i, pc, store, event))
    ensures RecordInv(Advance(s, i, pc, store, event))
  {
    var s' := Advance(s, i, pc, store, event);
    forall k | 0 <= k < |s'.pipes|
      ensures s'.pipes[k].task in s'.Tasks() && Shown(s'.pipes[k].pc, s'.Tasks()[s'.pipes[k].task])
    {
      assert Shown(s.pipes[k].pc, s.Tasks()[s.pipes[k].task]);
      UnstaffedWaits(s, k);
      if k != i && s.pipes[k].task == s.pipes[i].task && Runnable(s.Store(), s.pipes[i].task) {
        OthersAreDone(s, i, k);
      }
    }
  }

  /** Scheduling writes only the queue coordinates of tasks without a coroutine. */
  lemma ReleaseKeepsRecords(s: System)
    requires Shape(s) && PendingFresh(s) && RecordInv(s)
    ensures RecordInv(Release(s))
  {
    var s' := Release(s);
    ReleaseEffect(s);
    SpawnedPipes(s, "");
    forall k | 0 <= k < |s'.pipes|
      ensures s'.pipes[k].task in s'.Tasks() && Shown(s'.pipes[k].pc, s'.Tasks()[s'.pipes[k].task])
    {
      if k < |s.pipes| {
        PendingNotTouched(s, k);
        assert s'.pipes[k] == s.pipes[k];
      }
    }
  }

  lemma WakeKeepsRecords(s: System, i: nat)
    requires Shape(s) && PendingFresh(s) && RecordInv(s) && i < |s.pipes|
    ensures RecordInv(WakeStep(s, i))
  {
    var ended := s.(pipes := s.pipes[i := Pipe(s.pipes[i].task, Done)]);
    EndKeepsFresh(s, i);
    ReleaseKeepsRecords(ended);
  }

  lemma RespawnKeepsRecords(s: System, i: nat)
    requires RecordInv(s) && i < |s.pipes|
    ensures RecordInv(RespawnStep(s, i))
  {
    var s' := RespawnStep(s, i);
    assert forall k :: 0 <= k < |s.pipes| && k != i ==> s'.pipes[k] == s.pipes[k];
  }

  lemma StepKeepsRecords(settings: Settings, s: System, s': System)
    requires Shape(s) && PendingFresh(s) && StartedStaffed(s) && InStep(s) && NoOverlap(s) && RecordInv(s)
    requires Next(settings, s, s')
    ensures RecordInv(s')
  {
    var a :| StepBy(settings, s, a, s');
    match a {
      case Wake(i) => WakeKeepsRecords(s, i);
      case Respawn(i) => RespawnKeepsRecords(s, i);
      case _ =>
        var pc, store, status, event := StepShape(settings, s, a);
        StepWrites(settings, s, a);
        AdvanceKeepsRecords(s, a.i, pc, store, status, event);
    }
  }

  lemma InitialRecords(s: System, pool: Store, broker: Broker<Message>, plan: seq<TaskSpec>)
    requires Initial(s, pool, broker, plan)
    ensures RecordInv(s)
  {
    var loaded := Loaded(pool, broker, plan);
    LoadedIsReady(pool, broker, plan);
    forall id | id in loaded.Tasks()
      ensures WellValidated(loaded.Tasks()[id])
    {
      PendingSpec(loaded, id);
    }
    ReleaseKeepsRecords(loaded);
  }

  lemma RecordsPassOn(
    settings: Settings, pool: Store, broker: Broker<Message>, plan: seq<TaskSpec>, run: seq<System>, j: nat)
    requires IsExclusiveRun(settings, pool, broker, plan, run) && j + 1 < |run| && RecordInv(run[j])
    ensures RecordInv(run[j + 1])
  {
    RunKeepsLifecycle(settings, pool, broker, plan, run, j);
    RunKeepsExclusive(settings, pool, broker, plan, run, j);
    assert Next(settings, run[j], run[j + 1]);
    StepKeepsRecords(settings, run[j], run[j + 1]);
  }

  lemma RunKeepsRecords(
    settings: Settings, pool: Store, broker: Broker<Message>, plan: seq<TaskSpec>, run: seq<System>, k: nat)
    requires IsExclusiveRun(settings, pool, broker, plan, run) && k < |run|
    ensures RecordInv(run[k])
  {
    InitialRecords(run[0], pool, broker, plan);
    forall j | 0 <= j < |run| - 1 && RecordInv(run[j])
      ensures RecordInv(run[j + 1])
    {
      RecordsPassOn(settings, pool, broker, plan, run, j);
    }
    HoldsAlong(run, (s: System) => RecordInv(s), 0, k);
  }

  /**
   Without overlap a validated task's record holds a result, an execution time
   between 0 and 120 seconds, and a score of at least 6.8 points.
   */
  lemma ValidatedTasksCarryTheirResult(
    settings: Settings, pool: Store, broker: Broker<Message>, plan: seq<TaskSpec>, run: seq<System>, k: nat, id: string)
    requires IsExclusiveRun(settings, pool, broker, plan, run) && k < |run|
    requires run[k].Store().HasStatus(id, VALIDATED)
    ensures var t := run[k].Tasks()[id];
            && t.result.Some? && t.executionTime.Some? && 0 < t.executionTime.value < 12000
            && t.qualityScore.Some? && 68 <= t.qualityScore.value <= 100
  {
    RunKeepsRecords(settings, pool, broker, plan, run, k);
  }

  /** Without overlap the record of a task shows its coroutine's worker, then that coroutine's result or error. */
  lemma RecordsShowTheCoroutine(
    settings: Settings, pool: Store, broker: Broker<Message>, plan: seq<TaskSpec>, run: seq<System>, k: nat, i: nat)
    requires IsExclusiveRun(settings, pool, broker, plan, run) && k < |run| && i < |run[k].pipes|
    ensures run[k].pipes[i].task in run[k].Tasks()
    ensures Shown(run[k].pipes[i].pc, run[k].Tasks()[run[k].pipes[i].task])
  {
    RunKeepsRecords(settings, pool, broker, plan, run, k);
  }

  // ---- The history has every finished task's time ----

  /** The latest entry about a task. */
  function LatestEntry(history: seq<ExecutionRecord>, id: string): Option<ExecutionRecord> {
    if history == [] then None
    else if history[|history| - 1].taskId == id then Some(history[|history| - 1])
    else LatestEntry(history[..|history| - 1], id)
  }

  lemma LatestAppended(history: seq<ExecutionRecord>, entry: ExecutionRecord, id: string)
    ensures LatestEntry(history + [entry], id) == if entry.taskId == id then Some(entry) else LatestEntry(history, id)
  {
    assert (history + [entry])[..|history|] == history;
  }

  /** The record's time is that of the latest entry. */
  ghost predicate Timed(s: System, id: string) {
    && id in s.Tasks() && LatestEntry(s.Store().history, id).Some?
    && s.Tasks()[id].executionTime == Some(LatestEntry(s.Store().history, id).value.executionTime)
  }

  ghost predicate AllTimed(s: System) {
    forall id :: id in s.Tasks() && s.Tasks()[id].status in {COMPLETED, VALIDATED} ==> Timed(s, id)
  }

  /** Another task's step, or one that writes neither the time nor the history, changes nothing here. */
  lemma StaysTimed(s: System, s': System, id: string)
    requires Timed(s, id) && id in s'.Tasks() && s'.Tasks()[id].executionTime == s.Tasks()[id].executionTime
    requires s'.Store().history == s.Store().history
    ensures Timed(s', id)
  {
  }

  lemma CompletionTimes(s: System, i: nat, result: TaskResult)
    requires Shape(s) && AllTimed(s) && i < |s.pipes| && s.pipes[i].pc.Running? && !result.failed
    ensures AllTimed(FinishStep(s, i, result))
  {
    var s' := FinishStep(s, i, result);
    var pc, store, status, event := FinishShape(s, i, result);
    var entry := ExecutionRecord(s.pipes[i].task, s.pipes[i].pc.worker, result.executionTime);
    forall id | id in s'.Tasks() && s'.Tasks()[id].status in {COMPLETED, VALIDATED}
      ensures Timed(s', id)
    {
      assert s'.Store().history == s.Store().history + [entry];
      LatestAppended(s.Store().history, entry, id);
    }
  }

  lemma FailureTimes(s: System, i: nat, result: TaskResult)
    requires Shape(s) && AllTimed(s) && i < |s.pipes| && s.pipes[i].pc.Running? && result.failed
    ensures AllTimed(FinishStep(s, i, result))
  {
    var s' := FinishStep(s, i, result);
    var pc, store, status, event := FinishShape(s, i, result);
    forall id | id in s'.Tasks() && s'.Tasks()[id].status in {COMPLETED, VALIDATED}
      ensures Timed(s', id)
    {
      StaysTimed(s, s', id);
    }
  }

  /** A verdict leaves the time of a task that is COMPLETED. */
  lemma JudgeTimes(s: System, i: nat, variance: int)
    requires Shape(s) && InStep(s) && AllTimed(s) && i < |s.pipes| && s.pipes[i].pc.Completed?
    ensures AllTimed(JudgeStep(s, i, variance))
  {
    var s' := JudgeStep(s, i, variance);
    assert Matches(s.pipes[i].pc, s.Tasks()[s.pipes[i].task].status);
    forall id | id in s'.Tasks() && s'.Tasks()[id].status in {COMPLETED, VALIDATED}
      ensures Timed(s', id)
    {
      StaysTimed(s, s', id);
    }
  }

  lemma AssignKeepsHistory(s: System, i: nat, id: string)
    requires Shape(s) && i < |s.pipes|
    requires id in AssignStep(s, i).Tasks() && AssignStep(s, i).Tasks()[id].status in {COMPLETED, VALIDATED}
    ensures AssignStep(s, i).Store().history == s.Store().history
    ensures id in s.Tasks() && AssignStep(s, i).Tasks()[id] == s.Tasks()[id]
  {
  }

  lemma OthersKeepHistory(settings: Settings, s: System, a: Action, id: string)
    requires Shape(s) && Enabled(s, a) && IsAdvance(a) && !a.Finish? && !a.Judge?
    requires var r := Apply(settings, s, a); id in r.Tasks() && r.Tasks()[id].status in {COMPLETED, VALIDATED}
    ensures Apply(settings, s, a).Store().history == s.Store().history
    ensures id in s.Tasks() && Apply(settings, s, a).Tasks()[id] == s.Tasks()[id]
  {
    match a {
      case Assign(i) => AssignKeepsHistory(s, i, id);
      case _ =>
    }
  }

  /** Whoever is not done with its task takes it out of these states or leaves it alone. */
  lemma OthersTime(settings: Settings, s: System, a: Action)
    requires Shape(s) && AllTimed(s) && Enabled(s, a) && IsAdvance(a) && !a.Finish? && !a.Judge?
    ensures AllTimed(Apply(settings, s, a))
  {
    var s' := Apply(settings, s, a);
    var pc, store, status, event := StepShape(settings, s, a);
    forall id | id in s'.Tasks() && s'.Tasks()[id].status in {COMPLETED, VALIDATED}
      ensures Timed(s', id)
    {
      OthersKeepHistory(settings, s, a, id);
      StaysTimed(s, s', id);
    }
  }

  lemma ReleaseTimes(s: System)
    requires Shape(s) && PendingFresh(s) && AllTimed(s)
    ensures AllTimed(Release(s))
  {
    ReleaseEffect(s);
    forall id | id in Release(s).Tasks() && Release(s).Tasks()[id].status in {COMPLETED, VALIDATED}
      ensures Timed(Release(s), id)
    {
      StaysTimed(s, Release(s), id);
    }
  }

  lemma ApplyTimes(settings: Settings, s: System, a: Action)
    requires Shape(s) && PendingFresh(s) && InStep(s) && AllTimed(s) && Enabled(s, a)
    ensures AllTimed(Apply(settings, s, a))
  {
    match a {
      case Wake(i) =>
        var ended := s.(pipes := s.pipes[i := Pipe(s.pipes[i].task, Done)]);
        EndKeepsFresh(s, i);
        assert forall id :: Timed(s, id) ==> Timed(ended, id);
        ReleaseTimes(ended);
      case Respawn(i) =>
        assert forall id :: Timed(s, id) ==> Timed(Apply(settings, s, a), id);
      case Finish(i, result) =>
        if result.failed {
          FailureTimes(s, i, result);
        } else {
          CompletionTimes(s, i, result);
        }
      case Judge(i, variance) => JudgeTimes(s, i, variance);
      case _ => OthersTime(settings, s, a);
    }
  }

  lemma TimesPassOn(
    settings: Settings, pool: Store, broker: Broker<Message>, plan: seq<TaskSpec>, run: seq<System>, j: nat)
    requires IsExclusiveRun(settings, pool, broker, plan, run) && j + 1 < |run| && AllTimed(run[j])
    ensures AllTimed(run[j + 1])
  {
    RunKeepsShape(settings, pool, broker, plan, run, j);
    RunKeepsFresh(settings, pool, broker, plan, run, j);
    RunKeepsExclusive(settings, pool, broker, plan, run, j);
    assert Next(settings, run[j], run[j + 1]);
    var a :| StepBy(settings, run[j], a, run[j + 1]);
    ApplyTimes(settings, run[j], a);
  }

  lemma InitialTimes(s: System, pool: Store, broker: Broker<Message>, plan: seq<TaskSpec>)
    requires Initial(s, pool, broker, plan)
    ensures AllTimed(s)
  {
    var loaded := Loaded(pool, broker, plan);
    LoadedIsReady(pool, broker, plan);
    forall id | id in loaded.Tasks()
      ensures loaded.Tasks()[id].status == CREATED
    {
      PendingSpec(loaded, id);
    }
    ReleaseTimes(loaded);
  }

  lemma {:induction false} LatestIsOwn(history: seq<ExecutionRecord>, id: string)
    ensures LatestEntry(history, id).Some? ==>
              LatestEntry(history, id).value in history && LatestEntry(history, id).value.taskId == id
  {
    if history == [] {
    } else {
      LatestIsOwn(history[..|history| - 1], id);
    }
  }

  /**
   Without overlap the execution time in the record of a task that is COMPLETED
   or VALIDATED is the time of the task's latest entry in the history.
   */
  lemma RecordsAgreeWithHistory(
    settings: Settings, pool: Store, broker: Broker<Message>, plan: seq<TaskSpec>, run: seq<System>, k: nat, id: string)
    requires IsExclusiveRun(settings, pool, broker, plan, run) && k < |run|
    requires id in run[k].Tasks() && run[k].Tasks()[id].status in {COMPLETED, VALIDATED}
    ensures var latest := LatestEntry(run[k].Store().history, id);
            && latest.Some? && latest.value.taskId == id
            && run[k].Tasks()[id].executionTime == Some(latest.value.executionTime)
  {
    InitialTimes(run[0], pool, broker, plan);
    forall j | 0 <= j < |run| - 1 && AllTimed(run[j])
      ensures AllTimed(run[j + 1])
    {
      TimesPassOn(settings, pool, broker, plan, run, j);
    }
    HoldsAlong(run, (s: System) => AllTimed(s), 0, k);
    assert Timed(run[k], id);
    LatestIsOwn(run[k].Store().history, id);
  }
}
