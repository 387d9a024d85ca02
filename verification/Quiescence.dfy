/**
 What a workload looks like when no coroutine is left: no wake-up has been
 lost, and every task that did not make it has a reason.
 */
module Quiescence {
  import opened Collections
  import opened Models
  import opened TaskStores
  import opened MemoryQueues
  import opened Schedulers
  import opened Pipelines
  import opened Lifecycle

  /** Each id in the chain has the next one among its dependencies. */
  ghost predicate IsChain(s: Store, chain: seq<string>) {
    && |chain| > 0
    && forall k :: 0 <= k < |chain| - 1 ==>
         chain[k] in s.tasks && chain[k + 1] in s.tasks[chain[k]].spec.dependencies
  }

  ghost predicate Leads(s: Store, chain: seq<string>, from: string, to: string) {
    IsChain(s, chain) && chain[0] == from && chain[|chain| - 1] == to
  }

  /** `to` is a direct or indirect dependency of `from`. */
  ghost predicate DependsOn(s: Store, from: string, to: string) {
    exists chain :: |chain| > 1 && Leads(s, chain, from, to)
  }

  /** A task that is over without being validated. */
  ghost predicate Blocked(s: System, id: string)
    requires id in s.Tasks()
  {
    match s.Tasks()[id].status
    case FAILED => DeadLettered(id) in s.log
    case COMPLETED => ValidationFailed(id) in s.log
    case QUEUED => !Staffed(s.Store(), s.Tasks()[id].spec)
    case _ => false
  }

  lemma NoLivePipe(s: System, id: string, stage: Stage)
    requires s.Quiescent() && stage != AtDone
    ensures !HasPipe(s.pipes, id, stage)
  {
  }

  /** With no coroutine left, a task that was ever released is validated or blocked. */
  lemma ReleasedIsOver(s: System, id: string)
    requires LifecycleInv(s) && s.Quiescent() && id in s.Tasks() && !Pending(s, id)
    ensures s.Tasks()[id].status == VALIDATED || Blocked(s, id)
  {
    assert Covered(s, id);
    forall stage | stage != AtDone
      ensures !HasPipe(s.pipes, id, stage)
    {
      NoLivePipe(s, id, stage);
    }
  }

  /** A pending task waits for something: one of its dependencies is open. */
  lemma OpenDependency(s: System, id: string) returns (dep: string)
    requires LifecycleInv(s) && s.Quiescent() && Pending(s, id)
    ensures id in s.Tasks() && dep in s.Tasks()[id].spec.dependencies && !s.Store().Settled(dep)
  {
    PendingSpec(s, id);
    var spec := s.Tasks()[id].spec;
    var k :| 0 <= k < |s.desk.pending| && s.desk.pending[k] == spec;
    assert !s.desk.Ready(s.desk.pending[k]);
    var d :| 0 <= d < |spec.dependencies| && !s.Store().Settled(spec.dependencies[d]);
    dep := spec.dependencies[d];
  }

  /** Following open dependencies backwards from a pending task ends at a blocked one. */
  lemma {:induction false} BlockedAncestor(s: System, n: nat) returns (chain: seq<string>)
    requires LifecycleInv(s) && s.Quiescent()
    requires n < |s.Store().taskOrder| && Pending(s, s.Store().taskOrder[n])
    ensures |chain| > 1 && IsChain(s.Store(), chain) && chain[0] == s.Store().taskOrder[n]
    ensures chain[|chain| - 1] in s.Tasks() && !Pending(s, chain[|chain| - 1]) && Blocked(s, chain[|chain| - 1])
  {
    var order := s.Store().taskOrder;
    var dep := OpenDependency(s, order[n]);
    assert DependsBackwards(s.Store(), n);
    var m :| 0 <= m < n && order[m] == dep;
    if Pending(s, dep) {
      var rest := BlockedAncestor(s, m);
      chain := [order[n]] + rest;
    } else {
      ReleasedIsOver(s, dep);
      chain := [order[n], dep];
    }
  }

  /**
   Quiescence, coroutines overlapping or not: when no coroutine is live, every
   task is validated, or blocked (dead-lettered, rejected by the critic, or
   queued for a worker type that has no worker), or still exactly as planned
   with a blocked direct or indirect dependency.
   */
  lemma QuiescentFates(
    settings: Settings, pool: Store, broker: Broker<Message>, plan: seq<TaskSpec>, run: seq<System>, k: nat, id: string)
    requires IsRun(settings, pool, broker, plan, run) && k < |run|
    requires run[k].Quiescent() && id in run[k].Tasks()
    ensures var s := run[k];
            || s.Tasks()[id].status == VALIDATED
            || Blocked(s, id)
            || (Pending(s, id) && s.Tasks()[id] == NewTask(s.Tasks()[id].spec)
                && exists to :: to in s.Tasks() && DependsOn(s.Store(), id, to) && Blocked(s, to))
  {
    RunKeepsLifecycle(settings, pool, broker, plan, run, k);
    var s := run[k];
    if Pending(s, id) {
      PendingSpec(s, id);
      var n :| 0 <= n < |s.Store().taskOrder| && s.Store().taskOrder[n] == id;
      var chain := BlockedAncestor(s, n);
      assert Leads(s.Store(), chain, id, chain[|chain| - 1]);
    } else {
      ReleasedIsOver(s, id);
    }
  }

  /** No lost wake-up, in every reachable state: a ready pending task has a coroutine about to schedule it. */
  lemma NoLostWakeUp(
    settings: Settings, pool: Store, broker: Broker<Message>, plan: seq<TaskSpec>, run: seq<System>, k: nat,
    task: TaskSpec)
    requires IsRun(settings, pool, broker, plan, run) && k < |run|
    requires task in run[k].desk.pending && run[k].desk.Ready(task)
    ensures exists i :: 0 <= i < |run[k].pipes| && run[k].pipes[i].pc.Judged?
    ensures !run[k].Quiescent()
  {
    RunKeepsLifecycle(settings, pool, broker, plan, run, k);
    var s := run[k];
    var m :| 0 <= m < |s.desk.pending| && s.desk.pending[m] == task;
    assert s.desk.Ready(s.desk.pending[m]);
    var i :| 0 <= i < |s.pipes| && s.pipes[i].pc.Judged?;
    assert Live(s.pipes[i]);
  }

  /** If nothing is blocked when the system comes to rest, everything is validated. */
  lemma NothingBlockedMeansAllValidated(
    settings: Settings, pool: Store, broker: Broker<Message>, plan: seq<TaskSpec>, run: seq<System>, k: nat)
    requires IsRun(settings, pool, broker, plan, run) && k < |run| && run[k].Quiescent()
    requires forall id :: id in run[k].Tasks() ==> !Blocked(run[k], id)
    ensures forall id :: id in run[k].Tasks() ==> run[k].Tasks()[id].status == VALIDATED
  {
    forall id | id in run[k].Tasks()
      ensures run[k].Tasks()[id].status == VALIDATED
    {
      QuiescentFates(settings, pool, broker, plan, run, k, id);
    }
  }

  // ---- The status table at rest ----

  /** With no coroutine left, the pending list holds exactly the CREATED tasks. */
  lemma CreatedIsPending(s: System, id: string)
    requires LifecycleInv(s) && s.Quiescent() && id in s.Tasks()
    ensures Pending(s, id) <==> s.Tasks()[id].status == CREATED
  {
    if Pending(s, id) {
      PendingSpec(s, id);
    } else {
      ReleasedIsOver(s, id);
    }
  }

  /** No task is in a state between CREATED and the final ones. */
  lemma {:induction false} CountNone(s: Store, order: seq<string>, status: TaskStatus)
    requires forall id :: id in order && id in s.tasks ==> s.tasks[id].status != status
    ensures s.CountIn(order, {status}) == 0
  {
    if order == [] {
    } else {
      assert order[0] in order;
      assert forall id :: id in order[1..] ==> id in order;
      CountNone(s, order[1..], status);
    }
  }

  lemma HeadIsMember(ids: seq<string>)
    ensures ids != [] ==> ids[0] in ids
  {
  }

  /** Pending ids, each once: as many as there are CREATED tasks. */
  lemma {:induction false} CountMembers(s: Store, order: seq<string>, ids: seq<string>, status: TaskStatus)
    requires Distinct(order) && Distinct(ids)
    requires forall id :: id in ids ==> id in order
    requires forall id :: id in order && id in s.tasks ==> (s.tasks[id].status == status <==> id in ids)
    requires forall id :: id in order ==> id in s.tasks
    ensures s.CountIn(order, {status}) == |ids|
  {
    if order == [] {
      HeadIsMember(ids);
    } else {
      var first, rest := order[0], order[1..];
      assert forall id :: id in order <==> id == first || id in rest;
      if first in ids {
        var k :| 0 <= k < |ids| && ids[k] == first;
        var others := ids[..k] + ids[k + 1..];
        assert forall id :: id in others <==> id in ids && id != first;
        CountMembers(s, rest, others, status);
      } else {
        CountMembers(s, rest, ids, status);
      }
    }
  }

  /** The pending list never holds a task twice. */
  lemma {:induction false} FilterKeepsIdsDistinct(tasks: seq<TaskSpec>, keep: TaskSpec -> bool)
    requires Distinct(Ids(tasks))
    ensures Distinct(Ids(Filter(tasks, keep)))
  {
    if tasks == [] {
    } else {
      var rest := tasks[1..];
      assert Ids(tasks)[1..] == Ids(rest);
      FilterKeepsIdsDistinct(rest, keep);
      var kept := Filter(rest, keep);
      forall k | 0 <= k < |kept|
        ensures kept[k].taskId in Ids(rest)
      {
        FilterMember(rest, keep, kept[k]);
        IdsMember(rest, kept[k].taskId);
      }
      assert forall m :: 0 <= m < |rest| ==> Ids(rest)[m] == Ids(tasks)[m + 1];
      assert Ids(tasks)[0] == tasks[0].taskId;
      assert tasks[0].taskId !in Ids(rest);
      assert forall k :: 0 <= k < |kept| ==> Ids(kept)[k] == kept[k].taskId;
      assert Ids([tasks[0]] + kept) == [tasks[0].taskId] + Ids(kept);
    }
  }

  lemma ReleaseKeepsDistinct(s: System)
    requires Shape(s) && PendingFresh(s) && Distinct(Ids(s.desk.pending))
    ensures Distinct(Ids(Release(s).desk.pending))
  {
    SettleIsFilter(s.desk);
    FilterKeepsIdsDistinct(s.desk.pending, IsHeldBack(s.Store()));
  }

  lemma StepKeepsDistinct(settings: Settings, s: System, s': System)
    requires Shape(s) && PendingFresh(s) && Distinct(Ids(s.desk.pending)) && Next(settings, s, s')
    ensures Distinct(Ids(s'.desk.pending))
  {
    var a :| StepBy(settings, s, a, s');
    match a {
      case Wake(i) =>
        EndKeepsFresh(s, i);
        ReleaseKeepsDistinct(s.(pipes := s.pipes[i := Pipe(s.pipes[i].task, Done)]));
      case Respawn(i) =>
      case _ =>
        var pc, store, status, event := StepShape(settings, s, a);
    }
  }

  lemma DistinctPassesOn(
    settings: Settings, pool: Store, broker: Broker<Message>, plan: seq<TaskSpec>, run: seq<System>, j: nat)
    requires IsRun(settings, pool, broker, plan, run) && j + 1 < |run| && Distinct(Ids(run[j].desk.pending))
    ensures Distinct(Ids(run[j + 1].desk.pending))
  {
    RunKeepsShape(settings, pool, broker, plan, run, j);
    RunKeepsFresh(settings, pool, broker, plan, run, j);
    assert Next(settings, run[j], run[j + 1]);
    StepKeepsDistinct(settings, run[j], run[j + 1]);
  }

  lemma PendingDistinct(
    settings: Settings, pool: Store, broker: Broker<Message>, plan: seq<TaskSpec>, run: seq<System>, k: nat)
    requires IsRun(settings, pool, broker, plan, run) && k < |run|
    ensures Distinct(Ids(run[k].desk.pending))
  {
    LoadedIsReady(pool, broker, plan);
    ReleaseKeepsDistinct(Loaded(pool, broker, plan));
    forall j | 0 <= j < |run| - 1 && Distinct(Ids(run[j].desk.pending))
      ensures Distinct(Ids(run[j + 1].desk.pending))
    {
      DistinctPassesOn(settings, pool, broker, plan, run, j);
    }
    HoldsAlong(run, (s: System) => Distinct(Ids(s.desk.pending)), 0, k);
  }

  lemma RestingStates(s: System, id: string)
    requires LifecycleInv(s) && s.Quiescent() && id in s.Tasks()
    ensures s.Tasks()[id].status in {CREATED, VALIDATED, FAILED, COMPLETED, QUEUED}
    ensures s.Tasks()[id].status == CREATED <==> id in Ids(s.desk.pending)
  {
    CreatedIsPending(s, id);
    if !Pending(s, id) {
      ReleasedIsOver(s, id);
    }
  }

  lemma RestingRows(s: System)
    requires LifecycleInv(s) && s.Quiescent() && Distinct(Ids(s.desk.pending))
    ensures StatusCount(s.Store(), CREATED) == |s.desk.pending|
    ensures forall status :: status in {PARTITIONED, ASSIGNED, RUNNING, STORED} ==> StatusCount(s.Store(), status) == 0
  {
    var o := s.Store().taskOrder;
    forall id | id in o
      ensures id in s.Tasks()
      ensures s.Tasks()[id].status in {CREATED, VALIDATED, FAILED, COMPLETED, QUEUED}
      ensures s.Tasks()[id].status == CREATED <==> id in Ids(s.desk.pending)
    {
      RestingStates(s, id);
    }
    forall id | id in Ids(s.desk.pending)
      ensures id in o
    {
      PendingSpec(s, id);
    }
    CountMembers(s.Store(), o, Ids(s.desk.pending), CREATED);
    forall status | status in {PARTITIONED, ASSIGNED, RUNNING, STORED}
      ensures StatusCount(s.Store(), status) == 0
    {
      CountNone(s.Store(), o, status);
    }
  }

  /**
   At rest the table has only five non-empty rows, and they add up: every task
   is validated, failed, completed but rejected, queued without a worker, or
   held by the scheduler.
   */
  lemma RestingTotals(
    settings: Settings, pool: Store, broker: Broker<Message>, plan: seq<TaskSpec>, run: seq<System>, k: nat)
    requires IsRun(settings, pool, broker, plan, run) && k < |run| && run[k].Quiescent()
    ensures var s := run[k].Store();
            |s.taskOrder| == StatusCount(s, VALIDATED) + StatusCount(s, FAILED) + StatusCount(s, COMPLETED)
                             + StatusCount(s, QUEUED) + |run[k].desk.pending|
  {
    RunKeepsLifecycle(settings, pool, broker, plan, run, k);
    PendingDistinct(settings, pool, broker, plan, run, k);
    RestingRows(run[k]);
    SummaryAgreesWithCounts(run[k].Store());
  }
}
