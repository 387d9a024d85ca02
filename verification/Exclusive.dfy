/**
 Runs in which no task that a worker could run ever has two live coroutines:
 what the comment at the spawning loop intends. Here the lifecycle is the
 documented one.
 */
module Exclusive {
  import opened Collections
  import opened Models
  import opened TaskStores
  import opened MemoryQueues
  import opened Schedulers
  import opened Critics
  import opened Pipelines
  import opened Lifecycle
  import opened Accounting

  /** The task is stored and some worker of the type it needs is available. */
  ghost predicate Runnable(s: Store, id: string) {
    id in s.tasks && Staffed(s, s.tasks[id].spec)
  }

  ghost predicate Meet(s: System, i: nat, j: nat) {
    && i < |s.pipes| && j < |s.pipes| && i != j && Live(s.pipes[i]) && Live(s.pipes[j])
    && s.pipes[i].task == s.pipes[j].task && Runnable(s.Store(), s.pipes[i].task)
  }

  /** At most one live coroutine per task that some worker could run; the others' coroutines only give up. */
  ghost predicate NoOverlap(s: System) {
    forall i, j :: 0 <= i < |s.pipes| && 0 <= j < |s.pipes| ==> !Meet(s, i, j)
  }

  /** The task's recorded state is the one its coroutine has reached. */
  predicate Matches(pc: Pc, status: TaskStatus) {
    match pc
    case Start => status in {QUEUED, CREATED}
    case Waiting => status == QUEUED
    case Assigned(_) => status == ASSIGNED
    case Running(_) => status == RUNNING
    case Failed(_) => status == FAILED
    case Backoff(_) => status == CREATED
    case Completed(_) => status == COMPLETED
    case Judged => status in {VALIDATED, COMPLETED}
    case Done => true
  }

  ghost predicate InStep(s: System) {
    forall k :: 0 <= k < |s.pipes| ==>
      s.pipes[k].task in s.Tasks() && Matches(s.pipes[k].pc, s.Tasks()[s.pipes[k].task].status)
  }

  ghost predicate DepsValidated(s: System, id: string) {
    id in s.Tasks() && forall d :: d in s.Tasks()[id].spec.dependencies ==> s.Store().HasStatus(d, VALIDATED)
  }

  /** Whatever has been released has, and keeps, validated dependencies. */
  ghost predicate ReleasedAreSound(s: System) {
    forall id :: id in s.Tasks() && !Pending(s, id) ==> DepsValidated(s, id)
  }

  ghost predicate StaysDead(s: System, id: string) {
    && s.Store().HasStatus(id, FAILED)
    && forall k :: 0 <= k < |s.pipes| && s.pipes[k].task == id ==> s.pipes[k].pc.Done?
  }

  /** A dead-lettered task stays failed and has no live coroutine. */
  ghost predicate DeadStayDead(s: System) {
    forall id :: DeadLettered(id) in s.log ==> StaysDead(s, id)
  }

  ghost predicate ExclusiveInv(s: System) {
    InStep(s) && ReleasedAreSound(s) && DeadStayDead(s)
  }

  // ---- Steps ----

  lemma OthersAreDone(s: System, i: nat, k: nat)
    requires NoOverlap(s) && i < |s.pipes| && k < |s.pipes| && i != k
    requires Live(s.pipes[i]) && s.pipes[k].task == s.pipes[i].task && Runnable(s.Store(), s.pipes[i].task)
    ensures s.pipes[k].pc.Done?
  {
    assert !Meet(s, i, k);
  }

  /** A task without a worker stays QUEUED, and its coroutines never get past waiting. */
  lemma UnstaffedWaits(s: System, k: nat)
    requires PendingFresh(s) && StartedStaffed(s) && InStep(s) && k < |s.pipes|
    ensures s.pipes[k].task in s.Tasks()
    ensures Runnable(s.Store(), s.pipes[k].task) || s.Tasks()[s.pipes[k].task].status == QUEUED
    ensures Runnable(s.Store(), s.pipes[k].task) || s.pipes[k].pc in {Start, Waiting, Done}
  {
    PendingNotTouched(s, k);
    assert Matches(s.pipes[k].pc, s.Tasks()[s.pipes[k].task].status);
  }

  /** With one coroutine per task no row overwrites VALIDATED. */
  lemma ValidatedIsKept(s: System, i: nat, pc: Pc, store: Store, status: TaskStatus, event: Event, id: string)
    requires Shape(s) && InStep(s) && i < |s.pipes|
    requires Changes(s.Store(), store, s.pipes[i].task, status) && Allowed(s, i, pc, status, event)
    requires s.Store().HasStatus(id, VALIDATED)
    ensures store.HasStatus(id, VALIDATED)
  {
    assert Matches(s.pipes[i].pc, s.Tasks()[s.pipes[i].task].status);
  }

  lemma AdvanceKeepsInStep(s: System, i: nat, pc: Pc, store: Store, status: TaskStatus, event: Event)
    requires Shape(s) && InStep(s) && NoOverlap(s) && PendingFresh(s) && StartedStaffed(s) && i < |s.pipes|
    requires Changes(s.Store(), store, s.pipes[i].task, status) && Allowed(s, i, pc, status, event)
    ensures InStep(Advance(s, i, pc, store, event))
  {
    var s' := Advance(s, i, pc, store, event);
    PendingNotTouched(s, i);
    forall k | 0 <= k < |s'.pipes|
      ensures s'.pipes[k].task in s'.Tasks() && Matches(s'.pipes[k].pc, s'.Tasks()[s'.pipes[k].task].status)
    {
      assert Matches(s.pipes[k].pc, s.Tasks()[s.pipes[k].task].status);
      UnstaffedWaits(s, i);
      if k != i && s.pipes[k].task == s.pipes[i].task && Runnable(s.Store(), s.pipes[i].task) {
        OthersAreDone(s, i, k);
      }
    }
  }

  lemma AdvanceKeepsSound(s: System, i: nat, pc: Pc, store: Store, status: TaskStatus, event: Event)
    requires Shape(s) && InStep(s) && ReleasedAreSound(s) && i < |s.pipes|
    requires Changes(s.Store(), store, s.pipes[i].task, status) && Allowed(s, i, pc, status, event)
    ensures ReleasedAreSound(Advance(s, i, pc, store, event))
  {
    var s' := Advance(s, i, pc, store, event);
    forall id | id in s'.Tasks() && !Pending(s', id)
      ensures DepsValidated(s', id)
    {
      assert DepsValidated(s, id);
      forall d | d in s'.Tasks()[id].spec.dependencies
        ensures s'.Store().HasStatus(d, VALIDATED)
      {
        ValidatedIsKept(s, i, pc, store, status, event, d);
      }
    }
  }

  lemma NewlyDead(s: System, i: nat, pc: Pc, store: Store, status: TaskStatus, event: Event, id: string)
    requires NoOverlap(s) && PendingFresh(s) && StartedStaffed(s) && InStep(s) && i < |s.pipes|
    requires Changes(s.Store(), store, s.pipes[i].task, status) && Allowed(s, i, pc, status, event)
    requires event == DeadLettered(id)
    ensures StaysDead(Advance(s, i, pc, store, event), id)
  {
    var s' := Advance(s, i, pc, store, event);
    UnstaffedWaits(s, i);
    forall k | 0 <= k < |s'.pipes| && s'.pipes[k].task == id
      ensures s'.pipes[k].pc.Done?
    {
      if k != i {
        OthersAreDone(s, i, k);
      }
    }
  }

  lemma KeptDead(s: System, i: nat, pc: Pc, store: Store, status: TaskStatus, event: Event, id: string)
    requires i < |s.pipes| && StaysDead(s, id)
    requires Changes(s.Store(), store, s.pipes[i].task, status) && Allowed(s, i, pc, status, event)
    ensures StaysDead(Advance(s, i, pc, store, event), id)
  {
    assert s.pipes[i].task != id;
  }

  lemma AdvanceKeepsDead(s: System, i: nat, pc: Pc, store: Store, status: TaskStatus, event: Event)
    requires NoOverlap(s) && DeadStayDead(s) && i < |s.pipes|
    requires PendingFresh(s) && StartedStaffed(s) && InStep(s)
    requires Changes(s.Store(), store, s.pipes[i].task, status) && Allowed(s, i, pc, status, event)
    ensures DeadStayDead(Advance(s, i, pc, store, event))
  {
    var s' := Advance(s, i, pc, store, event);
    forall id | DeadLettered(id) in s'.log
      ensures StaysDead(s', id)
    {
      if DeadLettered(id) in s.log {
        KeptDead(s, i, pc, store, status, event, id);
      } else {
        NewlyDead(s, i, pc, store, status, event, id);
      }
    }
  }

  lemma RespawnKeepsExclusive(s: System, i: nat)
    requires ExclusiveInv(s) && i < |s.pipes| && s.pipes[i].pc.Backoff?
    ensures ExclusiveInv(RespawnStep(s, i))
  {
    var s' := RespawnStep(s, i);
    assert Matches(s.pipes[i].pc, s.Tasks()[s.pipes[i].task].status);
    assert forall k :: 0 <= k < |s.pipes| && k != i ==> s'.pipes[k] == s.pipes[k];
    forall id | id in s'.Tasks() && !Pending(s', id)
      ensures DepsValidated(s', id)
    {
      assert DepsValidated(s, id);
    }
  }

  lemma ReleaseKeepsInStep(s: System)
    requires Shape(s) && PendingFresh(s) && InStep(s)
    ensures InStep(Release(s))
  {
    var s' := Release(s);
    ReleaseEffect(s);
    SpawnedPipes(s, "");
    forall k | 0 <= k < |s'.pipes|
      ensures s'.pipes[k].task in s'.Tasks() && Matches(s'.pipes[k].pc, s'.Tasks()[s'.pipes[k].task].status)
    {
      if k < |s.pipes| {
        PendingNotTouched(s, k);
        assert s'.pipes[k] == s.pipes[k];
      }
    }
  }

  lemma NotPendingWhenSettled(s: System, d: string)
    requires ReadyToRelease(s) && s.Store().Settled(d)
    ensures !Goes(s, d) && s.Store().HasStatus(d, VALIDATED)
  {
    if Pending(s, d) {
      PendingSpec(s, d);
    } else {
      assert Covered(s, d);
    }
  }

  lemma ReleaseKeepsSound(s: System)
    requires ReadyToRelease(s) && ReleasedAreSound(s)
    ensures ReleasedAreSound(Release(s))
  {
    var s' := Release(s);
    ReleaseEffect(s);
    forall id | id in s'.Tasks() && !Pending(s', id)
      ensures DepsValidated(s', id)
    {
      var deps := s.Tasks()[id].spec.dependencies;
      forall d | d in deps
        ensures s'.Store().HasStatus(d, VALIDATED)
      {
        if Goes(s, id) {
          var n :| 0 <= n < |deps| && deps[n] == d;
          assert s.Store().Settled(deps[n]);
        } else {
          assert DepsValidated(s, id);
        }
        NotPendingWhenSettled(s, d);
      }
    }
  }

  lemma ReleaseKeepsDead(s: System)
    requires Shape(s) && PendingFresh(s) && DeadStayDead(s)
    ensures DeadStayDead(Release(s))
  {
    var s' := Release(s);
    ReleaseEffect(s);
    SpawnedPipes(s, "");
    forall id | DeadLettered(id) in s'.log
      ensures StaysDead(s', id)
    {
      assert StaysDead(s, id);
      if Pending(s, id) {
        PendingSpec(s, id);
      }
      forall k | 0 <= k < |s'.pipes| && s'.pipes[k].task == id
        ensures s'.pipes[k].pc.Done?
      {
        if k < |s.pipes| {
          assert s'.pipes[k] == s.pipes[k];
        }
      }
    }
  }

  lemma EndKeepsExclusive(s: System, i: nat)
    requires ExclusiveInv(s) && i < |s.pipes|
    ensures ExclusiveInv(s.(pipes := s.pipes[i := Pipe(s.pipes[i].task, Done)]))
  {
    var ended := s.(pipes := s.pipes[i := Pipe(s.pipes[i].task, Done)]);
    forall id | id in ended.Tasks() && !Pending(ended, id)
      ensures DepsValidated(ended, id)
    {
      assert DepsValidated(s, id);
    }
  }

  lemma WakeKeepsExclusive(s: System, i: nat)
    requires LifecycleInv(s) && ExclusiveInv(s) && i < |s.pipes| && s.pipes[i].pc.Judged?
    ensures ExclusiveInv(WakeStep(s, i))
  {
    var ended := s.(pipes := s.pipes[i := Pipe(s.pipes[i].task, Done)]);
    EndedIsReady(s, i);
    EndKeepsExclusive(s, i);
    ReleaseKeepsInStep(ended);
    ReleaseKeepsSound(ended);
    ReleaseKeepsDead(ended);
  }

  lemma StepKeepsExclusive(settings: Settings, s: System, s': System)
    requires LifecycleInv(s) && ExclusiveInv(s) && NoOverlap(s) && Next(settings, s, s')
    ensures ExclusiveInv(s')
  {
    var a :| StepBy(settings, s, a, s');
    match a {
      case Wake(i) => WakeKeepsExclusive(s, i);
      case Respawn(i) => RespawnKeepsExclusive(s, i);
      case _ =>
        var pc, store, status, event := StepShape(settings, s, a);
        AdvanceKeepsInStep(s, a.i, pc, store, status, event);
        AdvanceKeepsSound(s, a.i, pc, store, status, event);
        AdvanceKeepsDead(s, a.i, pc, store, status, event);
    }
  }

  lemma InitialExclusive(s: System, pool: Store, broker: Broker<Message>, plan: seq<TaskSpec>)
    requires Initial(s, pool, broker, plan)
    ensures ExclusiveInv(s)
  {
    var loaded := Loaded(pool, broker, plan);
    LoadedIsReady(pool, broker, plan);
    ReleaseKeepsInStep(loaded);
    ReleaseKeepsSound(loaded);
    ReleaseKeepsDead(loaded);
  }

  /** A run in which no two live coroutines ever share a task that a worker could run. */
  ghost predicate IsExclusiveRun(
    settings: Settings, pool: Store, broker: Broker<Message>, plan: seq<TaskSpec>, run: seq<System>)
  {
    IsRun(settings, pool, broker, plan, run) && forall k :: 0 <= k < |run| ==> NoOverlap(run[k])
  }

  lemma ExclusivePassesOn(
    settings: Settings, pool: Store, broker: Broker<Message>, plan: seq<TaskSpec>, run: seq<System>, j: nat)
    requires IsExclusiveRun(settings, pool, broker, plan, run) && j + 1 < |run| && ExclusiveInv(run[j])
    ensures ExclusiveInv(run[j + 1])
  {
    RunKeepsLifecycle(settings, pool, broker, plan, run, j);
    assert Next(settings, run[j], run[j + 1]);
    StepKeepsExclusive(settings, run[j], run[j + 1]);
  }

  lemma RunKeepsExclusive(
    settings: Settings, pool: Store, broker: Broker<Message>, plan: seq<TaskSpec>, run: seq<System>, k: nat)
    requires IsExclusiveRun(settings, pool, broker, plan, run) && k < |run|
    ensures ExclusiveInv(run[k])
  {
    InitialExclusive(run[0], pool, broker, plan);
    forall j | 0 <= j < |run| - 1 && ExclusiveInv(run[j])
      ensures ExclusiveInv(run[j + 1])
    {
      ExclusivePassesOn(settings, pool, broker, plan, run, j);
    }
    HoldsAlong(run, (s: System) => ExclusiveInv(s), 0, k);
  }

  // ---- The documented lifecycle ----

  /** One step along the documented state diagram; `retried` says whether the task has been retried. */
  predicate Edge(before: TaskStatus, after: TaskStatus, retried: bool) {
    || before == after
    || (before == CREATED && after == QUEUED && !retried)
    || (before == CREATED && after == ASSIGNED && retried)
    || (before == QUEUED && after == ASSIGNED)
    || (before == ASSIGNED && after == RUNNING)
    || (before == RUNNING && after in {COMPLETED, FAILED})
    || (before == FAILED && after == CREATED)
    || (before == COMPLETED && after == VALIDATED)
  }

  // ---- Attempts ----

  function StartsOf(id: string): Event -> nat {
    (e: Event) => if e.TaskStarted? && e.task == id then 1 else 0
  }

  /** How often a task has been handed to a worker's execute. */
  function Attempts(s: System, id: string): nat { Sum(s.log, StartsOf(id)) }

  /** Attempts so far: one per retry, plus the current one once it has started. */
  ghost predicate AttemptsAdd(s: System, id: string) {
    id in s.Tasks() &&
    Attempts(s, id) == s.Tasks()[id].retryCount
                       + if s.Tasks()[id].status in {RUNNING, FAILED, COMPLETED, VALIDATED} then 1 else 0
  }

  /** Released CREATED tasks are the retried ones, and attempts add up. */
  ghost predicate AttemptInv(s: System) {
    && (forall id :: id in s.Tasks() && !Pending(s, id) && s.Tasks()[id].status == CREATED ==>
          s.Tasks()[id].retryCount > 0)
    && (forall id :: id in s.Tasks() ==> AttemptsAdd(s, id))
  }

  lemma AssignKeepsCount(s: System, i: nat, id: string)
    requires Shape(s) && i < |s.pipes| && (s.pipes[i].pc.Start? || s.pipes[i].pc.Waiting?) && id in s.Tasks()
    ensures id in AssignStep(s, i).Tasks() && AssignStep(s, i).Tasks()[id].retryCount == s.Tasks()[id].retryCount
    ensures !AssignStep(s, i).pipes[i].pc.Backoff?
  {
  }

  lemma FinishKeepsCount(s: System, i: nat, result: TaskResult, id: string)
    requires Shape(s) && i < |s.pipes| && s.pipes[i].pc.Running? && id in s.Tasks()
    ensures var r := FinishStep(s, i, result);
            && id in r.Tasks() && r.Tasks()[id].retryCount == s.Tasks()[id].retryCount
            && !r.pipes[i].pc.Backoff?
  {
  }

  /** The retry count of a task goes up exactly when a retry is scheduled for it. */
  lemma RetryCountStep(settings: Settings, s: System, a: Action, id: string)
    requires Shape(s) && Enabled(s, a) && IsAdvance(a) && id in s.Tasks()
    ensures id in Apply(settings, s, a).Tasks()
    ensures Apply(settings, s, a).Tasks()[id].retryCount ==
            s.Tasks()[id].retryCount
            + if id == s.pipes[a.i].task && Apply(settings, s, a).pipes[a.i].pc.Backoff? then 1 else 0
  {
    match a {
      case Assign(i) => AssignKeepsCount(s, i, id);
      case Finish(i, result) => FinishKeepsCount(s, i, result, id);
      case _ =>
    }
  }

  lemma AdvanceKeepsAttempts(s: System, i: nat, pc: Pc, store: Store, status: TaskStatus, event: Event, id: string)
    requires Shape(s) && InStep(s) && i < |s.pipes| && AttemptsAdd(s, id)
    requires Changes(s.Store(), store, s.pipes[i].task, status) && Allowed(s, i, pc, status, event)
    requires store.tasks[id].retryCount ==
             s.Tasks()[id].retryCount + if id == s.pipes[i].task && pc.Backoff? then 1 else 0
    ensures AttemptsAdd(Advance(s, i, pc, store, event), id)
  {
    SumSnoc(s.log, event, StartsOf(id));
    assert Matches(s.pipes[i].pc, s.Tasks()[s.pipes[i].task].status);
  }

  lemma AdvanceKeepsAttemptInv(settings: Settings, s: System, a: Action)
    requires Shape(s) && PendingFresh(s) && InStep(s) && AttemptInv(s) && Enabled(s, a) && IsAdvance(a)
    ensures AttemptInv(Apply(settings, s, a))
  {
    var pc, store, status, event := StepShape(settings, s, a);
    var s' := Apply(settings, s, a);
    forall id | id in s'.Tasks()
      ensures AttemptsAdd(s', id)
      ensures !Pending(s', id) && s'.Tasks()[id].status == CREATED ==> s'.Tasks()[id].retryCount > 0
    {
      RetryCountStep(settings, s, a, id);
      AdvanceKeepsAttempts(s, a.i, pc, store, status, event, id);
      if id == s.pipes[a.i].task {
        PendingNotTouched(s, a.i);
      }
    }
  }

  lemma ReleaseKeepsAttemptInv(s: System)
    requires Shape(s) && PendingFresh(s) && AttemptInv(s)
    ensures AttemptInv(Release(s))
  {
    var s' := Release(s);
    ReleaseEffect(s);
    forall id | id in s'.Tasks()
      ensures AttemptsAdd(s', id)
      ensures !Pending(s', id) && s'.Tasks()[id].status == CREATED ==> s'.Tasks()[id].retryCount > 0
    {
      assert AttemptsAdd(s, id);
      assert Pending(s', id) <==> Pending(s, id) && !Goes(s, id);
      if Goes(s, id) {
        PendingSpec(s, id);
      }
    }
  }

  lemma SameDeskSameAttempts(s: System, s': System)
    requires AttemptInv(s) && s'.desk == s.desk && s'.log == s.log
    ensures AttemptInv(s')
  {
    forall id | id in s'.Tasks()
      ensures AttemptsAdd(s', id)
      ensures !Pending(s', id) && s'.Tasks()[id].status == CREATED ==> s'.Tasks()[id].retryCount > 0
    {
      assert AttemptsAdd(s, id);
      assert Pending(s', id) <==> Pending(s, id);
    }
  }

  lemma StepKeepsAttempts(settings: Settings, s: System, s': System)
    requires Shape(s) && PendingFresh(s) && InStep(s) && AttemptInv(s) && Next(settings, s, s')
    ensures AttemptInv(s')
  {
    var a :| StepBy(settings, s, a, s');
    match a {
      case Wake(i) =>
        var ended := s.(pipes := s.pipes[i := Pipe(s.pipes[i].task, Done)]);
        EndKeepsFresh(s, i);
        SameDeskSameAttempts(s, ended);
        ReleaseKeepsAttemptInv(ended);
      case Respawn(i) => SameDeskSameAttempts(s, s');
      case _ => AdvanceKeepsAttemptInv(settings, s, a);
    }
  }

  lemma InitialAttempts(s: System, pool: Store, broker: Broker<Message>, plan: seq<TaskSpec>)
    requires Initial(s, pool, broker, plan)
    ensures AttemptInv(s)
  {
    var loaded := Loaded(pool, broker, plan);
    LoadedIsReady(pool, broker, plan);
    forall id | id in loaded.Tasks()
      ensures AttemptsAdd(loaded, id)
    {
      PendingSpec(loaded, id);
    }
    ReleaseKeepsAttemptInv(loaded);
  }

  lemma AttemptsPassOn(
    settings: Settings, pool: Store, broker: Broker<Message>, plan: seq<TaskSpec>, run: seq<System>, j: nat)
    requires IsExclusiveRun(settings, pool, broker, plan, run) && j + 1 < |run| && AttemptInv(run[j])
    ensures AttemptInv(run[j + 1])
  {
    RunKeepsShape(settings, pool, broker, plan, run, j);
    RunKeepsFresh(settings, pool, broker, plan, run, j);
    RunKeepsExclusive(settings, pool, broker, plan, run, j);
    assert Next(settings, run[j], run[j + 1]);
    StepKeepsAttempts(settings, run[j], run[j + 1]);
  }

  lemma RunKeepsAttempts(
    settings: Settings, pool: Store, broker: Broker<Message>, plan: seq<TaskSpec>, run: seq<System>, k: nat)
    requires IsExclusiveRun(settings, pool, broker, plan, run) && k < |run|
    ensures AttemptInv(run[k])
  {
    InitialAttempts(run[0], pool, broker, plan);
    forall j | 0 <= j < |run| - 1 && AttemptInv(run[j])
      ensures AttemptInv(run[j + 1])
    {
      AttemptsPassOn(settings, pool, broker, plan, run, j);
    }
    HoldsAlong(run, (s: System) => AttemptInv(s), 0, k);
  }

  lemma RetryCountBounded(
    settings: Settings, pool: Store, broker: Broker<Message>, plan: seq<TaskSpec>, run: seq<System>, k: nat, id: string)
    requires IsRun(settings, pool, broker, plan, run) && k < |run| && id in run[k].Tasks()
    ensures run[k].Tasks()[id].retryCount <= RetryBudget(settings)
  {
    RunKeepsBooks(settings, pool, broker, plan, run, k);
  }

  /** Without overlap a task is executed at most once more than it may be retried. */
  lemma AttemptsBounded(
    settings: Settings, pool: Store, broker: Broker<Message>, plan: seq<TaskSpec>, run: seq<System>, k: nat, id: string)
    requires IsExclusiveRun(settings, pool, broker, plan, run) && k < |run| && id in run[k].Tasks()
    ensures Attempts(run[k], id) <= 1 + if settings.maxRetries > 0 then settings.maxRetries else 0
    ensures run[k].Tasks()[id].status == VALIDATED ==> Attempts(run[k], id) == run[k].Tasks()[id].retryCount + 1
  {
    RunKeepsAttempts(settings, pool, broker, plan, run, k);
    assert AttemptsAdd(run[k], id);
    RetryCountBounded(settings, pool, broker, plan, run, k, id);
  }

  // ---- Every step follows the diagram ----

  lemma AdvanceFollowsDiagram(s: System, i: nat, pc: Pc, store: Store, status: TaskStatus, event: Event)
    requires Shape(s) && PendingFresh(s) && InStep(s) && AttemptInv(s) && i < |s.pipes|
    requires Changes(s.Store(), store, s.pipes[i].task, status) && Allowed(s, i, pc, status, event)
    ensures Edge(s.Tasks()[s.pipes[i].task].status, status, s.Tasks()[s.pipes[i].task].retryCount > 0)
  {
    PendingNotTouched(s, i);
    assert Matches(s.pipes[i].pc, s.Tasks()[s.pipes[i].task].status);
  }

  lemma ApplyFollowsDiagram(settings: Settings, s: System, a: Action, id: string)
    requires Shape(s) && PendingFresh(s) && InStep(s) && AttemptInv(s) && Enabled(s, a) && IsAdvance(a)
    requires id in s.Tasks()
    ensures var s' := Apply(settings, s, a);
            id in s'.Tasks() && Edge(s.Tasks()[id].status, s'.Tasks()[id].status, s.Tasks()[id].retryCount > 0)
  {
    var pc, store, status, event := StepShape(settings, s, a);
    if id == s.pipes[a.i].task {
      AdvanceFollowsDiagram(s, a.i, pc, store, status, event);
    }
  }

  lemma WakeFollowsDiagram(s: System, i: nat, id: string)
    requires Shape(s) && PendingFresh(s) && i < |s.pipes| && id in s.Tasks()
    ensures id in WakeStep(s, i).Tasks()
    ensures Edge(s.Tasks()[id].status, WakeStep(s, i).Tasks()[id].status, s.Tasks()[id].retryCount > 0)
  {
    var ended := s.(pipes := s.pipes[i := Pipe(s.pipes[i].task, Done)]);
    EndKeepsFresh(s, i);
    ReleaseEffect(ended);
    if Goes(ended, id) {
      PendingSpec(ended, id);
    }
  }

  lemma StepFollowsDiagram(settings: Settings, s: System, s': System, id: string)
    requires Shape(s) && PendingFresh(s) && InStep(s) && AttemptInv(s) && Next(settings, s, s') && id in s.Tasks()
    ensures id in s'.Tasks()
    ensures Edge(s.Tasks()[id].status, s'.Tasks()[id].status, s.Tasks()[id].retryCount > 0)
  {
    var a :| StepBy(settings, s, a, s');
    match a {
      case Wake(i) => WakeFollowsDiagram(s, i, id);
      case Respawn(i) =>
      case _ => ApplyFollowsDiagram(settings, s, a, id);
    }
  }

  /**
   Without overlap the status of every task moves along the documented
   diagram at every step of a run; in particular VALIDATED is never left.
   */
  lemma LifecycleFollowsDiagram(
    settings: Settings, pool: Store, broker: Broker<Message>, plan: seq<TaskSpec>, run: seq<System>, k: nat, id: string)
    requires IsExclusiveRun(settings, pool, broker, plan, run) && k + 1 < |run| && id in run[k].Tasks()
    ensures id in run[k + 1].Tasks()
    ensures Edge(run[k].Tasks()[id].status, run[k + 1].Tasks()[id].status, run[k].Tasks()[id].retryCount > 0)
  {
    RunKeepsExclusive(settings, pool, broker, plan, run, k);
    RunKeepsAttempts(settings, pool, broker, plan, run, k);
    RunKeepsFresh(settings, pool, broker, plan, run, k);
    RunKeepsShape(settings, pool, broker, plan, run, k);
    assert Next(settings, run[k], run[k + 1]);
    StepFollowsDiagram(settings, run[k], run[k + 1], id);
  }

  lemma StaysValidated(
    settings: Settings, pool: Store, broker: Broker<Message>, plan: seq<TaskSpec>, run: seq<System>, j: nat, id: string)
    requires IsExclusiveRun(settings, pool, broker, plan, run) && j + 1 < |run|
    requires run[j].Store().HasStatus(id, VALIDATED)
    ensures run[j + 1].Store().HasStatus(id, VALIDATED)
  {
    LifecycleFollowsDiagram(settings, pool, broker, plan, run, j, id);
  }

  lemma ValidatedForGood(
    settings: Settings, pool: Store, broker: Broker<Message>, plan: seq<TaskSpec>, run: seq<System>,
    k: nat, m: nat, id: string)
    requires IsExclusiveRun(settings, pool, broker, plan, run) && k <= m < |run|
    requires run[k].Store().HasStatus(id, VALIDATED)
    ensures run[m].Store().HasStatus(id, VALIDATED)
  {
    forall j | k <= j < |run| - 1 && run[j].Store().HasStatus(id, VALIDATED)
      ensures run[j + 1].Store().HasStatus(id, VALIDATED)
    {
      StaysValidated(settings, pool, broker, plan, run, j, id);
    }
    HoldsAlong(run, (s: System) => s.Store().HasStatus(id, VALIDATED), k, m);
  }

  // ---- The critic ----

  /** Without overlap the critic accepts exactly the results that exist and have a sane time. */
  lemma CriticNeverBlamesDependencies(
    settings: Settings, pool: Store, broker: Broker<Message>, plan: seq<TaskSpec>, run: seq<System>, k: nat,
    i: nat, variance: int)
    requires IsExclusiveRun(settings, pool, broker, plan, run) && k < |run|
    requires i < |run[k].pipes| && run[k].pipes[i].pc.Completed? && IsVariance(variance)
    ensures run[k].pipes[i].task in run[k].Tasks()
    ensures var result := run[k].pipes[i].pc.result;
            Accepts(run[k].Store(), run[k].Tasks()[run[k].pipes[i].task].spec, result, variance) <==>
            result.result.Some? && TimeValid(result.executionTime)
  {
    var s := run[k];
    var id := s.pipes[i].task;
    RunKeepsExclusive(settings, pool, broker, plan, run, k);
    RunKeepsFresh(settings, pool, broker, plan, run, k);
    PendingNotTouched(s, i);
    assert DepsValidated(s, id);
    var deps := s.Tasks()[id].spec.dependencies;
    assert forall d :: 0 <= d < |deps| ==> deps[d] in deps && s.Store().HasStatus(deps[d], VALIDATED);
    ScoreNeverDecides(s.Store(), s.Tasks()[id].spec, s.pipes[i].pc.result, variance);
  }
}
