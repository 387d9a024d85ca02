/** A planned workload from submission to rest. */
module Workloads {
  import opened Collections
  import opened Models
  import opened TaskStores
  import opened MemoryQueues
  import opened LoadBalancers
  import opened Schedulers
  import opened Pipelines
  import opened Planners
  import opened Lifecycle
  import opened Quiescence
  import opened Exclusive
  import opened EndToEnd
  import opened SmoothRuns
  import opened Accounting

  // ---- The store never forgets the plan ----

  ghost predicate InStore(s: Store, spec: TaskSpec) {
    spec.taskId in s.tasks && s.tasks[spec.taskId].spec == spec
  }

  /** The store holds exactly the planned tasks, in plan order. */
  ghost predicate HoldsPlan(s: Store, plan: seq<TaskSpec>) {
    s.taskOrder == Ids(plan) && forall k :: 0 <= k < |plan| ==> InStore(s, plan[k])
  }

  ghost predicate SameSpecs(s: Store, r: Store) {
    && r.taskOrder == s.taskOrder
    && forall id :: id in s.tasks ==> id in r.tasks && r.tasks[id].spec == s.tasks[id].spec
  }

  lemma WakeKeepsSpecs(s: System, i: nat)
    requires Shape(s) && PendingFresh(s) && i < |s.pipes|
    ensures SameSpecs(s.Store(), WakeStep(s, i).Store())
  {
    EndKeepsFresh(s, i);
    ReleaseEffect(s.(pipes := s.pipes[i := Pipe(s.pipes[i].task, Done)]));
  }

  lemma ChangesKeepsSpecs(s: Store, r: Store, id: string, status: TaskStatus)
    requires Changes(s, r, id, status)
    ensures SameSpecs(s, r)
  {
  }

  lemma StepKeepsSpecs(settings: Settings, s: System, s': System)
    requires Shape(s) && PendingFresh(s) && Next(settings, s, s')
    ensures SameSpecs(s.Store(), s'.Store())
  {
    var a :| StepBy(settings, s, a, s');
    match a {
      case Wake(i) => WakeKeepsSpecs(s, i);
      case Respawn(i) =>
      case _ =>
        var pc, store, status, event := StepShape(settings, s, a);
        ChangesKeepsSpecs(s.Store(), store, s.pipes[a.i].task, status);
    }
  }

  lemma SameSpecsSamePlan(s: Store, r: Store, plan: seq<TaskSpec>)
    requires SameSpecs(s, r) && HoldsPlan(s, plan)
    ensures HoldsPlan(r, plan)
  {
    forall k | 0 <= k < |plan|
      ensures InStore(r, plan[k])
    {
      assert InStore(s, plan[k]);
    }
  }

  lemma PlanPassesOn(
    settings: Settings, pool: Store, broker: Broker<Message>, plan: seq<TaskSpec>, run: seq<System>, j: nat)
    requires IsRun(settings, pool, broker, plan, run) && j + 1 < |run| && HoldsPlan(run[j].Store(), plan)
    ensures HoldsPlan(run[j + 1].Store(), plan)
  {
    RunKeepsShape(settings, pool, broker, plan, run, j);
    RunKeepsFresh(settings, pool, broker, plan, run, j);
    assert Next(settings, run[j], run[j + 1]);
    StepKeepsSpecs(settings, run[j], run[j + 1]);
    SameSpecsSamePlan(run[j].Store(), run[j + 1].Store(), plan);
  }

  lemma InitialPlan(s: System, pool: Store, broker: Broker<Message>, plan: seq<TaskSpec>)
    requires Initial(s, pool, broker, plan)
    ensures HoldsPlan(s.Store(), plan)
  {
    var loaded := Loaded(pool, broker, plan);
    AddAllEffect(pool, plan);
    LoadedIsReady(pool, broker, plan);
    ReleaseEffect(loaded);
    forall k | 0 <= k < |plan|
      ensures InStore(s.Store(), plan[k])
    {
      assert IsStored(loaded.Store(), plan[k]);
    }
  }

  /** In every reachable state the store holds the planned tasks, each as planned. */
  lemma RunHoldsPlan(
    settings: Settings, pool: Store, broker: Broker<Message>, plan: seq<TaskSpec>, run: seq<System>, k: nat)
    requires IsRun(settings, pool, broker, plan, run) && k < |run|
    ensures HoldsPlan(run[k].Store(), plan)
  {
    InitialPlan(run[0], pool, broker, plan);
    forall j | 0 <= j < |run| - 1 && HoldsPlan(run[j].Store(), plan)
      ensures HoldsPlan(run[j + 1].Store(), plan)
    {
      PlanPassesOn(settings, pool, broker, plan, run, j);
    }
    HoldsAlong(run, (s: System) => HoldsPlan(s.Store(), plan), 0, k);
  }

  // ---- The aggregation waits for everything ----

  lemma LaterStage(k: nat) returns (m: nat, d: nat)
    requires k < 6
    ensures k < m < 7 && d < |PIPELINE_STAGES[m].dependsOn|
    ensures PIPELINE_STAGES[m].dependsOn[d] == PIPELINE_STAGES[k].stage
  {
    m, d := if k < 3 then k + 1 else if k < 5 then 5 else 6, if k == 4 then 1 else 0;
  }

  lemma Lengthen(s: Store, chain: seq<string>, from: string, via: string, to: string)
    requires |chain| > 0 && Leads(s, chain, from, via)
    requires via in s.tasks && to in s.tasks[via].spec.dependencies
    ensures Leads(s, chain + [to], from, to)
  {
  }

  lemma {:induction false} ChainDown(n: nat, priority: int, s: Store, c: nat, k: nat) returns (chain: seq<string>)
    requires HoldsPlan(s, PlanOf(n, priority)) && c < n && k < 7
    ensures |chain| > 1 && Leads(s, chain, AGGREGATE, TaskId(PIPELINE_STAGES[k].stage, c + 1))
    decreases 7 - k
  {
    var plan := PlanOf(n, priority);
    if k == 6 {
      AggregationAt(n, priority);
      assert InStore(s, plan[7 * n]);
      assert ReportIds(n)[c] == TaskId(REPORT, c + 1);
      chain := [AGGREGATE, TaskId(REPORT, c + 1)];
    } else {
      var m, d := LaterStage(k);
      StageAt(n, priority, c, m);
      assert InStore(s, plan[7 * c + m]);
      var above := ChainDown(n, priority, s, c, m);
      assert plan[7 * c + m].dependencies[d] == TaskId(PIPELINE_STAGES[k].stage, c + 1);
      Lengthen(s, above, AGGREGATE, TaskId(PIPELINE_STAGES[m].stage, c + 1), TaskId(PIPELINE_STAGES[k].stage, c + 1));
      chain := above + [TaskId(PIPELINE_STAGES[k].stage, c + 1)];
    }
  }

  lemma Located(n: nat, priority: int, id: string) returns (c: nat, k: nat)
    requires id in Ids(PlanOf(n, priority)) && id != AGGREGATE
    ensures c < n && k < 7 && id == TaskId(PIPELINE_STAGES[k].stage, c + 1)
  {
    var plan := PlanOf(n, priority);
    var j :| 0 <= j < |plan| && Ids(plan)[j] == id;
    AggregationAt(n, priority);
    assert j < 7 * n;
    c, k := j / 7, j % 7;
    StageAt(n, priority, c, k);
  }

  /** Every other planned task is a direct or indirect dependency of the aggregation. */
  lemma AggregateDependsOnAll(n: nat, priority: int, s: Store, id: string)
    requires HoldsPlan(s, PlanOf(n, priority)) && id in s.taskOrder && id != AGGREGATE
    ensures DependsOn(s, AGGREGATE, id)
  {
    var c, k := Located(n, priority, id);
    var chain := ChainDown(n, priority, s, c, k);
  }

  // ---- Workers stay available ----

  /** Both stores can run the same tasks. */
  ghost predicate SameStaff(s: Store, r: Store) {
    forall spec :: Staffed(s, spec) <==> Staffed(r, spec)
  }

  lemma WakeKeepsStaff(s: System, i: nat)
    requires Shape(s) && PendingFresh(s) && i < |s.pipes|
    ensures SameStaff(s.Store(), WakeStep(s, i).Store())
  {
    EndKeepsFresh(s, i);
    ReleaseShape(s.(pipes := s.pipes[i := Pipe(s.pipes[i].task, Done)]));
  }

  lemma StepKeepsStaff(settings: Settings, s: System, s': System)
    requires Shape(s) && PendingFresh(s) && Next(settings, s, s')
    ensures SameStaff(s.Store(), s'.Store())
  {
    var a :| StepBy(settings, s, a, s');
    match a {
      case Wake(i) => WakeKeepsStaff(s, i);
      case Respawn(i) =>
      case _ =>
        var pc, store, status, event := StepShape(settings, s, a);
        AdvanceKeepsShape(s, a.i, pc, store, status, event);
    }
  }

  lemma InitialStaff(s: System, pool: Store, broker: Broker<Message>, plan: seq<TaskSpec>)
    requires Initial(s, pool, broker, plan)
    ensures SameStaff(pool, s.Store())
  {
    var loaded := Loaded(pool, broker, plan);
    AddAllEffect(pool, plan);
    LoadedIsReady(pool, broker, plan);
    ReleaseShape(loaded);
    assert forall w, t :: pool.Available(w, t) <==> loaded.Store().Available(w, t);
  }

  lemma StaffPassesOn(
    settings: Settings, pool: Store, broker: Broker<Message>, plan: seq<TaskSpec>, run: seq<System>, j: nat)
    requires IsRun(settings, pool, broker, plan, run) && j + 1 < |run| && SameStaff(pool, run[j].Store())
    ensures SameStaff(pool, run[j + 1].Store())
  {
    RunKeepsShape(settings, pool, broker, plan, run, j);
    RunKeepsFresh(settings, pool, broker, plan, run, j);
    assert Next(settings, run[j], run[j + 1]);
    StepKeepsStaff(settings, run[j], run[j + 1]);
  }

  /** What the pool could run at the start it can run in every reachable state. */
  lemma RunKeepsStaff(
    settings: Settings, pool: Store, broker: Broker<Message>, plan: seq<TaskSpec>, run: seq<System>, k: nat)
    requires IsRun(settings, pool, broker, plan, run) && k < |run|
    ensures SameStaff(pool, run[k].Store())
  {
    InitialStaff(run[0], pool, broker, plan);
    forall j | 0 <= j < |run| - 1 && SameStaff(pool, run[j].Store())
      ensures SameStaff(pool, run[j + 1].Store())
    {
      StaffPassesOn(settings, pool, broker, plan, run, j);
    }
    HoldsAlong(run, (s: System) => SameStaff(pool, s.Store()), 0, k);
  }

  // ---- Start-up ----

  const NOTHING := Store(map[], [], map[], [], [], [], 0)

  /** The queue after start-up. */
  function StartUpBroker(): Broker<Message> {
    Broker(map[], 4)
      .CreateTopic(TOPIC_QUEUE_CPU, 4).CreateTopic(TOPIC_QUEUE_IO, 4)
      .CreateTopic(TOPIC_RESULTS, 4).CreateTopic(TOPIC_FAILURES, 4).CreateTopic(TOPIC_MONITORING, 4)
  }

  /** The five topics by name, each with four empty partitions. */
  lemma StartUpTopics()
    ensures StartUpBroker().topics.Keys ==
            {"task_queue_cpu", "task_queue_io", "task_results", "task_failures", "monitoring_events"}
    ensures forall name :: name in StartUpBroker().topics ==>
              && |StartUpBroker().topics[name].queues| == 4 && StartUpBroker().topics[name].produced == 0
              && forall p :: 0 <= p < 4 ==> StartUpBroker().topics[name].queues[p] == []
  {
    assert {"task_queue_cpu", "task_queue_io", "task_results", "task_failures", "monitoring_events"} ==
           {TOPIC_QUEUE_CPU, TOPIC_QUEUE_IO, TOPIC_RESULTS, TOPIC_FAILURES, TOPIC_MONITORING};
  }

  /** The store after start-up. */
  function StartUpPool(cpuCount: nat, ioCount: nat): Store {
    Registered(NOTHING, cpuCount, ioCount)
  }

  lemma StartUpBrokerIsUsable(pool: Store)
    ensures Desk(pool, StartUpBroker(), map[], [], []).Usable()
  {
  }

  lemma StartUpIsFresh(cpuCount: nat, ioCount: nat)
    ensures FreshStart(StartUpPool(cpuCount, ioCount), StartUpBroker())
  {
    RegistrationCounts(NOTHING, cpuCount, ioCount);
    StartUpBrokerIsUsable(StartUpPool(cpuCount, ioCount));
  }

  lemma OneOfType(s: Store, workerType: string)
    requires FreshPool(s) && |OfType(s, workerType)| > 0
    ensures exists w :: w in s.workerOrder && s.Available(w, workerType)
  {
    var w := OfType(s, workerType)[0];
    FilterMember(s.workerOrder, HasType(s, workerType), w);
    assert s.Available(w, workerType);
  }

  /** With a worker of each type, whatever is planned has somebody to run it. */
  lemma StartUpIsStaffed(cpuCount: nat, ioCount: nat)
    requires cpuCount > 0 && ioCount > 0
    ensures forall spec :: Staffed(StartUpPool(cpuCount, ioCount), spec)
  {
    var pool := StartUpPool(cpuCount, ioCount);
    RegistrationCounts(NOTHING, cpuCount, ioCount);
    OneOfType(pool, "cpu");
    OneOfType(pool, "io");
    forall spec
      ensures Staffed(pool, spec)
    {
      assert WorkerTypeFor(spec.partition) in {"cpu", "io"};
    }
  }

  // ---- Who does what ----

  /** Extraction and the two look-ups are done by IO workers, everything else of a workload by CPU workers. */
  lemma StagesMeetTheirWorkers(
    settings: Settings, pool: Store, broker: Broker<Message>, n: nat, priority: int, run: seq<System>, k: nat, i: nat)
    requires IsRun(settings, pool, broker, PlanOf(n, priority), run) && k < |run|
    requires i < |run[k].pipes| && (run[k].pipes[i].pc.Assigned? || run[k].pipes[i].pc.Running?)
    ensures run[k].pipes[i].task in run[k].Tasks() && run[k].pipes[i].pc.worker in run[k].Store().workers
    ensures run[k].Store().workers[run[k].pipes[i].pc.worker].workerType ==
            if run[k].Tasks()[run[k].pipes[i].task].spec.taskType == IO then "io" else "cpu"
  {
    var plan, id := PlanOf(n, priority), run[k].pipes[i].task;
    TasksRunOnTheirType(settings, pool, broker, plan, run, k, i);
    RunHoldsPlan(settings, pool, broker, plan, run, k);
    RunKeepsShape(settings, pool, broker, plan, run, k);
    assert id in Ids(plan);
    var j :| 0 <= j < |plan| && Ids(plan)[j] == id;
    assert InStore(run[k].Store(), plan[j]);
    PartitionFollowsType(n, priority, j);
  }

  // ---- From submission to rest ----

  /** A run of the planner's workload on a started-up system in which no coroutines overlap. */
  ghost predicate IsPlannedRun(
    settings: Settings, cpuCount: nat, ioCount: nat, n: nat, priority: int, run: seq<System>)
  {
    && cpuCount > 0 && ioCount > 0
    && IsExclusiveRun(settings, StartUpPool(cpuCount, ioCount), StartUpBroker(), PlanOf(n, priority), run)
  }

  lemma DoomedMeansDead(
    settings: Settings, cpuCount: nat, ioCount: nat, n: nat, priority: int, run: seq<System>, k: nat, id: string)
    requires IsPlannedRun(settings, cpuCount, ioCount, n, priority, run) && k < |run| && WorkersDeliver(run)
    ensures Doomed(run[k], id) <==> DeadLettered(id) in run[k].log
  {
    var pool, plan := StartUpPool(cpuCount, ioCount), PlanOf(n, priority);
    ProperResultsAreAccepted(settings, pool, StartUpBroker(), plan, run, k);
    StartUpIsStaffed(cpuCount, ioCount);
    RunKeepsStaff(settings, pool, StartUpBroker(), plan, run, k);
  }

  lemma DeadIsPlanned(
    settings: Settings, pool: Store, broker: Broker<Message>, plan: seq<TaskSpec>, run: seq<System>, k: nat, id: string)
    requires IsExclusiveRun(settings, pool, broker, plan, run) && k < |run| && DeadLettered(id) in run[k].log
    ensures id in run[k].Store().taskOrder
  {
    RunKeepsExclusive(settings, pool, broker, plan, run, k);
    RunKeepsShape(settings, pool, broker, plan, run, k);
  }

  lemma PlannedStore(
    settings: Settings, cpuCount: nat, ioCount: nat, n: nat, priority: int, run: seq<System>, k: nat)
    requires IsPlannedRun(settings, cpuCount, ioCount, n, priority, run) && k < |run|
    ensures HoldsPlan(run[k].Store(), PlanOf(n, priority)) && AGGREGATE in run[k].Tasks()
    ensures |run[k].Store().taskOrder| == 7 * n + 1
  {
    RunHoldsPlan(settings, StartUpPool(cpuCount, ioCount), StartUpBroker(), PlanOf(n, priority), run, k);
    AggregationAt(n, priority);
    assert InStore(run[k].Store(), PlanOf(n, priority)[7 * n]);
  }

  /** The final aggregation succeeds if and only if no task of the whole workload was dead-lettered. */
  lemma AggregateIffNoDeadLetter(
    settings: Settings, cpuCount: nat, ioCount: nat, n: nat, priority: int, run: seq<System>, k: nat)
    requires IsPlannedRun(settings, cpuCount, ioCount, n, priority, run) && k < |run|
    requires run[k].Quiescent() && WorkersDeliver(run)
    ensures run[k].Store().HasStatus(AGGREGATE, VALIDATED) <==> NoDeadLetter(run[k])
  {
    var s, pool, plan := run[k], StartUpPool(cpuCount, ioCount), PlanOf(n, priority);
    PlannedStore(settings, cpuCount, ioCount, n, priority, run, k);
    ValidatedIffNothingFailed(settings, pool, StartUpBroker(), plan, run, k, AGGREGATE);
    forall id
      ensures Doomed(s, id) <==> DeadLettered(id) in s.log
    {
      DoomedMeansDead(settings, cpuCount, ioCount, n, priority, run, k, id);
    }
    forall id | DeadLettered(id) in s.log
      ensures !s.Store().HasStatus(AGGREGATE, VALIDATED)
    {
      DeadIsPlanned(settings, pool, StartUpBroker(), plan, run, k, id);
      if id != AGGREGATE {
        AggregateDependsOnAll(n, priority, s.Store(), id);
      }
    }
  }

  lemma {:induction false} CountFull(s: Store, order: seq<string>, status: TaskStatus)
    requires forall id :: id in order ==> s.HasStatus(id, status)
    ensures s.CountIn(order, {status}) == |order|
  {
    if order == [] {
    } else {
      assert order[0] in order && forall id :: id in order[1..] ==> id in order;
      CountFull(s, order[1..], status);
    }
  }

  lemma {:induction false} CountShort(s: Store, order: seq<string>, status: TaskStatus)
    ensures s.CountIn(order, {status}) <= |order|
    ensures s.CountIn(order, {status}) == |order| ==> forall id :: id in order ==> s.HasStatus(id, status)
  {
    if order == [] {
    } else {
      CountShort(s, order[1..], status);
      assert forall id :: id in order <==> id == order[0] || id in order[1..];
    }
  }

  lemma AllValidatedIffNoDeadLetter(
    settings: Settings, cpuCount: nat, ioCount: nat, n: nat, priority: int, run: seq<System>, k: nat)
    requires IsPlannedRun(settings, cpuCount, ioCount, n, priority, run) && k < |run|
    requires run[k].Quiescent() && WorkersDeliver(run)
    ensures NoDeadLetter(run[k]) <==> forall id :: id in run[k].Tasks() ==> run[k].Store().HasStatus(id, VALIDATED)
  {
    var pool, plan := StartUpPool(cpuCount, ioCount), PlanOf(n, priority);
    forall id
      ensures Doomed(run[k], id) <==> DeadLettered(id) in run[k].log
    {
      DoomedMeansDead(settings, cpuCount, ioCount, n, priority, run, k, id);
    }
    AllValidatedIffNothingFailed(settings, pool, StartUpBroker(), plan, run, k);
    forall id | DeadLettered(id) in run[k].log
      ensures id in run[k].Tasks()
    {
      DeadIsPlanned(settings, pool, StartUpBroker(), plan, run, k, id);
      RunKeepsShape(settings, pool, StartUpBroker(), plan, run, k);
    }
  }

  /**
   For every number of chunks n, every pool with a worker of each type and all
   settings: when a run without overlap comes to rest and the workers returned
   proper results, all 7n + 1 planned tasks are validated if and only if none
   was dead-lettered.
   */
  lemma PlannedWorkloadEnds(
    settings: Settings, cpuCount: nat, ioCount: nat, n: nat, priority: int, run: seq<System>, k: nat)
    requires IsPlannedRun(settings, cpuCount, ioCount, n, priority, run) && k < |run|
    requires run[k].Quiescent() && WorkersDeliver(run)
    ensures NoDeadLetter(run[k]) <==> StatusCount(run[k].Store(), VALIDATED) == 7 * n + 1
  {
    var s := run[k].Store();
    PlannedStore(settings, cpuCount, ioCount, n, priority, run, k);
    AllValidatedIffNoDeadLetter(settings, cpuCount, ioCount, n, priority, run, k);
    RunKeepsShape(settings, StartUpPool(cpuCount, ioCount), StartUpBroker(), PlanOf(n, priority), run, k);
    CountShort(s, s.taskOrder, VALIDATED);
    if NoDeadLetter(run[k]) {
      CountFull(s, s.taskOrder, VALIDATED);
    }
  }

  /**
   For every number of chunks, every pool with a worker of each type and all
   settings there is a run without overlap, with proper results and without dead
   letters, at the end of which all 7n + 1 tasks are validated.
   */
  lemma PlannedRunExists(settings: Settings, cpuCount: nat, ioCount: nat, n: nat, priority: int)
    returns (run: seq<System>)
    requires cpuCount > 0 && ioCount > 0
    ensures IsPlannedRun(settings, cpuCount, ioCount, n, priority, run) && run[|run| - 1].Quiescent()
    ensures WorkersDeliver(run) && NoDeadLetter(run[|run| - 1])
    ensures StatusCount(run[|run| - 1].Store(), VALIDATED) == 7 * n + 1
  {
    var pool, broker, plan := StartUpPool(cpuCount, ioCount), StartUpBroker(), PlanOf(n, priority);
    StartUpIsFresh(cpuCount, ioCount);
    PlanIsValid(n, priority);
    var start := Release(Loaded(pool, broker, plan));
    StartsSmoothly(settings, pool, broker, plan, start);
    run := CanEndSmoothly(settings, pool, broker, plan, [start]);
    SmoothDelivers(settings, pool, broker, plan, run);
    PlannedWorkloadEnds(settings, cpuCount, ioCount, n, priority, run, |run| - 1);
  }
}
