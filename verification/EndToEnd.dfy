/**
 How a workload ends when no two live coroutines share a task: the failures
 alone decide which tasks are validated.
 */
module EndToEnd {
  import opened Models
  import opened TaskStores
  import opened MemoryQueues
  import opened Schedulers
  import opened Critics
  import opened Pipelines
  import opened Lifecycle
  import opened Quiescence
  import opened Exclusive

  // ---- A rejected task stays rejected ----

  ghost predicate StaysRejected(s: System, id: string) {
    && s.Store().HasStatus(id, COMPLETED)
    && forall k :: 0 <= k < |s.pipes| && s.pipes[k].task == id ==> s.pipes[k].pc.Judged? || s.pipes[k].pc.Done?
  }

  ghost predicate RejectedInv(s: System) {
    forall id :: ValidationFailed(id) in s.log ==> StaysRejected(s, id)
  }

  lemma NewRejection(s: System, i: nat, pc: Pc, store: Store, status: TaskStatus, event: Event, id: string)
    requires NoOverlap(s) && InStep(s) && PendingFresh(s) && StartedStaffed(s) && i < |s.pipes|
    requires Changes(s.Store(), store, s.pipes[i].task, status) && Allowed(s, i, pc, status, event)
    requires event == ValidationFailed(id)
    ensures StaysRejected(Advance(s, i, pc, store, event), id)
  {
    var s' := Advance(s, i, pc, store, event);
    assert Matches(s.pipes[i].pc, s.Tasks()[s.pipes[i].task].status);
    UnstaffedWaits(s, i);
    forall k | 0 <= k < |s'.pipes| && s'.pipes[k].task == id
      ensures s'.pipes[k].pc.Judged? || s'.pipes[k].pc.Done?
    {
      if k != i {
        OthersAreDone(s, i, k);
      }
    }
  }

  lemma KeptRejection(s: System, i: nat, pc: Pc, store: Store, status: TaskStatus, event: Event, id: string)
    requires i < |s.pipes| && StaysRejected(s, id)
    requires Changes(s.Store(), store, s.pipes[i].task, status) && Allowed(s, i, pc, status, event)
    ensures StaysRejected(Advance(s, i, pc, store, event), id)
  {
    assert s.pipes[i].task != id;
  }

  lemma AdvanceKeepsRejected(s: System, i: nat, pc: Pc, store: Store, status: TaskStatus, event: Event)
    requires Shape(s) && PendingFresh(s) && StartedStaffed(s) && NoOverlap(s) && InStep(s) && RejectedInv(s)
    requires i < |s.pipes|
    requires Changes(s.Store(), store, s.pipes[i].task, status) && Allowed(s, i, pc, status, event)
    ensures RejectedInv(Advance(s, i, pc, store, event))
  {
    var s' := Advance(s, i, pc, store, event);
    forall id | ValidationFailed(id) in s'.log
      ensures StaysRejected(s', id)
    {
      if ValidationFailed(id) in s.log {
        KeptRejection(s, i, pc, store, status, event, id);
      } else {
        NewRejection(s, i, pc, store, status, event, id);
      }
    }
  }

  lemma RespawnKeepsRejected(s: System, i: nat)
    requires RejectedInv(s) && i < |s.pipes| && s.pipes[i].pc.Backoff?
    ensures RejectedInv(RespawnStep(s, i))
  {
    var s' := RespawnStep(s, i);
    forall id | ValidationFailed(id) in s'.log
      ensures StaysRejected(s', id)
    {
      assert StaysRejected(s, id) && s.pipes[i].task != id;
    }
  }

  lemma WakeKeepsRejected(s: System, i: nat)
    requires Shape(s) && PendingFresh(s) && RejectedInv(s) && i < |s.pipes|
    ensures RejectedInv(WakeStep(s, i))
  {
    var ended := s.(pipes := s.pipes[i := Pipe(s.pipes[i].task, Done)]);
    var s' := WakeStep(s, i);
    EndKeepsFresh(s, i);
    ReleaseEffect(ended);
    SpawnedPipes(ended, "");
    forall id | ValidationFailed(id) in s'.log
      ensures StaysRejected(s', id)
    {
      assert StaysRejected(s, id);
      if Pending(ended, id) {
        PendingSpec(ended, id);
      }
      forall k | 0 <= k < |s'.pipes| && s'.pipes[k].task == id
        ensures s'.pipes[k].pc.Judged? || s'.pipes[k].pc.Done?
      {
        if k < |s.pipes| {
          assert s'.pipes[k] == ended.pipes[k];
        }
      }
    }
  }

  lemma StepKeepsRejected(settings: Settings, s: System, s': System)
    requires Shape(s) && PendingFresh(s) && StartedStaffed(s) && InStep(s) && NoOverlap(s) && RejectedInv(s)
    requires Next(settings, s, s')
    ensures RejectedInv(s')
  {
    var a :| StepBy(settings, s, a, s');
    match a {
      case Wake(i) => WakeKeepsRejected(s, i);
      case Respawn(i) => RespawnKeepsRejected(s, i);
      case _ =>
        var pc, store, status, event := StepShape(settings, s, a);
        AdvanceKeepsRejected(s, a.i, pc, store, status, event);
    }
  }

  lemma RejectedPassesOn(
    settings: Settings, pool: Store, broker: Broker<Message>, plan: seq<TaskSpec>, run: seq<System>, j: nat)
    requires IsExclusiveRun(settings, pool, broker, plan, run) && j + 1 < |run| && RejectedInv(run[j])
    ensures RejectedInv(run[j + 1])
  {
    RunKeepsLifecycle(settings, pool, broker, plan, run, j);
    RunKeepsExclusive(settings, pool, broker, plan, run, j);
    assert Next(settings, run[j], run[j + 1]);
    StepKeepsRejected(settings, run[j], run[j + 1]);
  }

  lemma InitialLog(s: System, pool: Store, broker: Broker<Message>, plan: seq<TaskSpec>)
    requires Initial(s, pool, broker, plan)
    ensures s.log == []
  {
    LoadedIsReady(pool, broker, plan);
    ReleaseEffect(Loaded(pool, broker, plan));
  }

  lemma RunKeepsRejected(
    settings: Settings, pool: Store, broker: Broker<Message>, plan: seq<TaskSpec>, run: seq<System>, k: nat)
    requires IsExclusiveRun(settings, pool, broker, plan, run) && k < |run|
    ensures RejectedInv(run[k])
  {
    InitialLog(run[0], pool, broker, plan);
    forall j | 0 <= j < |run| - 1 && RejectedInv(run[j])
      ensures RejectedInv(run[j + 1])
    {
      RejectedPassesOn(settings, pool, broker, plan, run, j);
    }
    HoldsAlong(run, (s: System) => RejectedInv(s), 0, k);
  }

  // ---- What a validated task says about its dependencies ----

  lemma ValidatedWasReleased(s: System, id: string)
    requires PendingFresh(s) && s.Store().HasStatus(id, VALIDATED)
    ensures !Pending(s, id)
  {
    if Pending(s, id) {
      PendingSpec(s, id);
    }
  }

  lemma {:induction false} ValidatedDown(s: System, chain: seq<string>)
    requires PendingFresh(s) && ReleasedAreSound(s) && IsChain(s.Store(), chain)
    requires s.Store().HasStatus(chain[0], VALIDATED)
    ensures s.Store().HasStatus(chain[|chain| - 1], VALIDATED)
  {
    if |chain| == 1 {
    } else {
      ValidatedWasReleased(s, chain[0]);
      assert DepsValidated(s, chain[0]);
      assert chain[0 + 1] in s.Tasks()[chain[0]].spec.dependencies;
      var rest := chain[1..];
      assert forall n :: 0 <= n < |rest| ==> rest[n] == chain[n + 1];
      ValidatedDown(s, rest);
    }
  }

  lemma ReleasedDown(s: System, id: string, dependency: string)
    requires PendingFresh(s) && ReleasedAreSound(s) && id in s.Tasks() && !Pending(s, id)
    requires DependsOn(s.Store(), id, dependency)
    ensures s.Store().HasStatus(dependency, VALIDATED)
  {
    var chain :| |chain| > 1 && Leads(s.Store(), chain, id, dependency);
    assert DepsValidated(s, id) && chain[0 + 1] in s.Tasks()[chain[0]].spec.dependencies;
    var rest := chain[1..];
    assert forall n :: 0 <= n < |rest| ==> rest[n] == chain[n + 1];
    ValidatedDown(s, rest);
  }

  /** Without overlap, whatever has left the pending list has all its direct and indirect dependencies validated. */
  lemma AncestorsAreValidated(
    settings: Settings, pool: Store, broker: Broker<Message>, plan: seq<TaskSpec>, run: seq<System>, k: nat,
    id: string, dependency: string)
    requires IsExclusiveRun(settings, pool, broker, plan, run) && k < |run|
    requires id in run[k].Tasks() && !Pending(run[k], id) && DependsOn(run[k].Store(), id, dependency)
    ensures run[k].Store().HasStatus(dependency, VALIDATED)
  {
    RunKeepsFresh(settings, pool, broker, plan, run, k);
    RunKeepsExclusive(settings, pool, broker, plan, run, k);
    ReleasedDown(run[k], id, dependency);
  }

  /** Dead-lettered, rejected by the critic, or without any worker of the type it needs. */
  ghost predicate Doomed(s: System, id: string) {
    || DeadLettered(id) in s.log
    || ValidationFailed(id) in s.log
    || (id in s.Tasks() && !Staffed(s.Store(), s.Tasks()[id].spec))
  }

  lemma ValidatedIsNotDoomed(s: System, id: string)
    requires PendingFresh(s) && StartedStaffed(s) && DeadStayDead(s) && RejectedInv(s)
    requires s.Store().HasStatus(id, VALIDATED)
    ensures !Doomed(s, id)
  {
    ValidatedWasReleased(s, id);
    assert ValidationFailed(id) in s.log ==> StaysRejected(s, id);
  }

  lemma ValidatedHasSoundPast(s: System, id: string, dependency: string)
    requires PendingFresh(s) && StartedStaffed(s) && ReleasedAreSound(s) && DeadStayDead(s) && RejectedInv(s)
    requires s.Store().HasStatus(id, VALIDATED) && DependsOn(s.Store(), id, dependency)
    ensures !Doomed(s, dependency)
  {
    var chain :| |chain| > 1 && Leads(s.Store(), chain, id, dependency);
    ValidatedDown(s, chain);
    ValidatedIsNotDoomed(s, dependency);
  }

  lemma RunInvariants(
    settings: Settings, pool: Store, broker: Broker<Message>, plan: seq<TaskSpec>, run: seq<System>, k: nat)
    requires IsExclusiveRun(settings, pool, broker, plan, run) && k < |run|
    ensures PendingFresh(run[k]) && StartedStaffed(run[k])
    ensures ReleasedAreSound(run[k]) && DeadStayDead(run[k]) && RejectedInv(run[k])
  {
    RunKeepsLifecycle(settings, pool, broker, plan, run, k);
    RunKeepsExclusive(settings, pool, broker, plan, run, k);
    RunKeepsRejected(settings, pool, broker, plan, run, k);
  }

  /**
   When a run without overlap comes to rest, the failures alone decide the
   outcome: a task is validated if and only if neither it nor any of its
   direct or indirect dependencies was dead-lettered, rejected, or without a
   worker.
   */
  lemma ValidatedIffNothingFailed(
    settings: Settings, pool: Store, broker: Broker<Message>, plan: seq<TaskSpec>, run: seq<System>, k: nat, id: string)
    requires IsExclusiveRun(settings, pool, broker, plan, run) && k < |run|
    requires run[k].Quiescent() && id in run[k].Tasks()
    ensures run[k].Tasks()[id].status == VALIDATED <==>
            !Doomed(run[k], id) && forall d :: DependsOn(run[k].Store(), id, d) ==> !Doomed(run[k], d)
  {
    var s := run[k];
    RunInvariants(settings, pool, broker, plan, run, k);
    if s.Tasks()[id].status == VALIDATED {
      ValidatedIsNotDoomed(s, id);
      forall d | DependsOn(s.Store(), id, d)
        ensures !Doomed(s, d)
      {
        ValidatedHasSoundPast(s, id, d);
      }
    } else {
      QuiescentFates(settings, pool, broker, plan, run, k, id);
      assert forall d :: d in s.Tasks() && Blocked(s, d) ==> Doomed(s, d);
    }
  }

  /** Everything is validated exactly when nothing failed. */
  lemma AllValidatedIffNothingFailed(
    settings: Settings, pool: Store, broker: Broker<Message>, plan: seq<TaskSpec>, run: seq<System>, k: nat)
    requires IsExclusiveRun(settings, pool, broker, plan, run) && k < |run| && run[k].Quiescent()
    ensures (forall id :: id in run[k].Tasks() ==> run[k].Tasks()[id].status == VALIDATED) <==>
            (forall id :: id in run[k].Tasks() ==> !Doomed(run[k], id))
  {
    var s := run[k];
    RunInvariants(settings, pool, broker, plan, run, k);
    if forall id :: id in s.Tasks() ==> s.Tasks()[id].status == VALIDATED {
      forall id | id in s.Tasks()
        ensures !Doomed(s, id)
      {
        ValidatedIsNotDoomed(s, id);
      }
    }
    if forall id :: id in s.Tasks() ==> !Doomed(s, id) {
      forall id | id in s.Tasks()
        ensures s.Tasks()[id].status == VALIDATED
      {
        QuiescentFates(settings, pool, broker, plan, run, k, id);
      }
    }
  }

  // ---- With workers that return proper results ----

  predicate Delivered(result: TaskResult) {
    result.result.Some? && TimeValid(result.executionTime)
  }

  /** Whatever a worker hands back as completed has a result and took between 0 and 120 seconds. */
  ghost predicate WorkersDeliver(run: seq<System>) {
    forall k, i :: 0 <= k < |run| && 0 <= i < |run[k].pipes| && run[k].pipes[i].pc.Completed? ==>
      Delivered(run[k].pipes[i].pc.result)
  }

  /** No task was given up. */
  ghost predicate NoDeadLetter(s: System) {
    forall id :: DeadLettered(id) !in s.log
  }

  ghost predicate NoRejection(s: System) {
    forall id :: ValidationFailed(id) !in s.log
  }

  lemma JudgeAccepts(
    settings: Settings, pool: Store, broker: Broker<Message>, plan: seq<TaskSpec>, run: seq<System>, j: nat,
    i: nat, variance: int)
    requires IsExclusiveRun(settings, pool, broker, plan, run) && j < |run| && WorkersDeliver(run)
    requires i < |run[j].pipes| && run[j].pipes[i].pc.Completed? && IsVariance(variance)
    requires run[j].pipes[i].task in run[j].Tasks()
    ensures JudgeStep(run[j], i, variance).log == run[j].log + [TaskValidated(run[j].pipes[i].task)]
  {
    CriticNeverBlamesDependencies(settings, pool, broker, plan, run, j, i, variance);
    assert Delivered(run[j].pipes[i].pc.result);
  }

  lemma OnlyJudgingRejects(settings: Settings, s: System, a: Action)
    requires Shape(s) && PendingFresh(s) && Enabled(s, a) && !a.Judge? && NoRejection(s)
    ensures NoRejection(Apply(settings, s, a))
  {
    match a {
      case Wake(i) =>
        EndKeepsFresh(s, i);
        ReleaseEffect(s.(pipes := s.pipes[i := Pipe(s.pipes[i].task, Done)]));
      case Respawn(i) =>
      case _ => var pc, store, status, event := StepShape(settings, s, a);
    }
  }

  lemma NoRejectionPassesOn(
    settings: Settings, pool: Store, broker: Broker<Message>, plan: seq<TaskSpec>, run: seq<System>, j: nat)
    requires IsExclusiveRun(settings, pool, broker, plan, run) && j + 1 < |run| && WorkersDeliver(run)
    requires NoRejection(run[j])
    ensures NoRejection(run[j + 1])
  {
    RunKeepsShape(settings, pool, broker, plan, run, j);
    RunKeepsFresh(settings, pool, broker, plan, run, j);
    assert Next(settings, run[j], run[j + 1]);
    var a :| StepBy(settings, run[j], a, run[j + 1]);
    match a {
      case Judge(i, variance) => JudgeAccepts(settings, pool, broker, plan, run, j, i, variance);
      case _ => OnlyJudgingRejects(settings, run[j], a);
    }
  }

  /** Without overlap, proper results are never rejected. */
  lemma ProperResultsAreAccepted(
    settings: Settings, pool: Store, broker: Broker<Message>, plan: seq<TaskSpec>, run: seq<System>, k: nat)
    requires IsExclusiveRun(settings, pool, broker, plan, run) && k < |run| && WorkersDeliver(run)
    ensures NoRejection(run[k])
  {
    InitialLog(run[0], pool, broker, plan);
    forall j | 0 <= j < |run| - 1 && NoRejection(run[j])
      ensures NoRejection(run[j + 1])
    {
      NoRejectionPassesOn(settings, pool, broker, plan, run, j);
    }
    HoldsAlong(run, (s: System) => NoRejection(s), 0, k);
  }
}
