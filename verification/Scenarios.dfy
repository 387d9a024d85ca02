/**
 What can happen to the planner's own workloads on a system that has just started
 up, with every coroutine moving in its turn.
 */
module Scenarios {
  import opened Collections
  import opened Models
  import opened TaskStores
  import opened MemoryQueues
  import opened LoadBalancers
  import opened Schedulers
  import opened Planners
  import opened Pipelines
  import opened Lifecycle
  import opened Exclusive
  import opened Accounting
  import opened LoadExactness
  import opened Workloads
  import opened Driving
  import opened DoubleProcessing

  // ---- Where these runs begin ----

  /** The state after the workload was submitted. */
  ghost predicate PlannedStart(cpuCount: nat, ioCount: nat, n: nat, priority: int, s: System) {
    Initial(s, StartUpPool(cpuCount, ioCount), StartUpBroker(), PlanOf(n, priority))
  }

  /** A run of a planned workload on a started-up system in which everybody moves in turn. */
  ghost predicate IsWorkloadRun(
    settings: Settings, cpuCount: nat, ioCount: nat, n: nat, priority: int, run: seq<System>)
  {
    && IsRun(settings, StartUpPool(cpuCount, ioCount), StartUpBroker(), PlanOf(n, priority), run)
    && GoesOn(settings, true, run, 0)
  }

  /** `s` is reached in turn by a run that begins in `from`. */
  ghost predicate Reached(
    settings: Settings, cpuCount: nat, ioCount: nat, n: nat, priority: int, from: System, s: System)
  {
    PlannedStart(cpuCount, ioCount, n, priority, from) && Reaches(settings, true, from, s)
  }

  lemma StartExists(settings: Settings, cpuCount: nat, ioCount: nat, n: nat, priority: int) returns (from: System)
    ensures Reached(settings, cpuCount, ioCount, n, priority, from, from)
    ensures from == Release(Loaded(StartUpPool(cpuCount, ioCount), StartUpBroker(), PlanOf(n, priority)))
    ensures ReadyToRelease(Loaded(StartUpPool(cpuCount, ioCount), StartUpBroker(), PlanOf(n, priority)))
  {
    StartUpIsFresh(cpuCount, ioCount);
    PlanIsValid(n, priority);
    LoadedIsReady(StartUpPool(cpuCount, ioCount), StartUpBroker(), PlanOf(n, priority));
    from := Release(Loaded(StartUpPool(cpuCount, ioCount), StartUpBroker(), PlanOf(n, priority)));
    ReachesSelf(settings, true, from);
  }

  lemma RunTo(
    settings: Settings, cpuCount: nat, ioCount: nat, n: nat, priority: int, from: System, s: System)
    returns (run: seq<System>)
    requires Reached(settings, cpuCount, ioCount, n, priority, from, s)
    ensures IsWorkloadRun(settings, cpuCount, ioCount, n, priority, run) && run[|run| - 1] == s
  {
    run :| IsPathTo(settings, true, run, from, s);
    PathIsPath(settings, true, run);
  }

  lemma ReachedIsSound(
    settings: Settings, cpuCount: nat, ioCount: nat, n: nat, priority: int, from: System, s: System)
    requires Reached(settings, cpuCount, ioCount, n, priority, from, s)
    ensures LifecycleInv(s)
  {
    var run := RunTo(settings, cpuCount, ioCount, n, priority, from, s);
    RunKeepsLifecycle(settings, StartUpPool(cpuCount, ioCount), StartUpBroker(), PlanOf(n, priority), run, |run| - 1);
  }

  lemma ReachedHasShape(
    settings: Settings, cpuCount: nat, ioCount: nat, n: nat, priority: int, from: System, s: System)
    requires Reached(settings, cpuCount, ioCount, n, priority, from, s)
    ensures Shape(s) && PendingFresh(s)
  {
    ReachedIsSound(settings, cpuCount, ioCount, n, priority, from, s);
  }

  /** Whatever is stored can run, if there is a worker of each type. */
  lemma ReachedIsStaffed(
    settings: Settings, cpuCount: nat, ioCount: nat, n: nat, priority: int, from: System, s: System, id: string)
    requires Reached(settings, cpuCount, ioCount, n, priority, from, s) && cpuCount > 0 && ioCount > 0
    requires id in s.Tasks()
    ensures Runnable(s.Store(), id)
  {
    var run := RunTo(settings, cpuCount, ioCount, n, priority, from, s);
    RunKeepsStaff(settings, StartUpPool(cpuCount, ioCount), StartUpBroker(), PlanOf(n, priority), run, |run| - 1);
    StartUpIsStaffed(cpuCount, ioCount);
  }

  // ---- Following a few tasks ----

  ghost predicate TaskAt(s: System, spec: TaskSpec, status: TaskStatus) {
    && s.Store().HasStatus(spec.taskId, status) && s.Tasks()[spec.taskId].spec == spec
    && (Pending(s, spec.taskId) <==> status == CREATED)
  }

  lemma LoadedTaskAt(pool: Store, broker: Broker<Message>, plan: seq<TaskSpec>, j: nat)
    requires FreshStart(pool, broker) && ValidPlan(plan) && j < |plan|
    ensures TaskAt(Loaded(pool, broker, plan), plan[j], CREATED)
  {
    AddAllEffect(pool, plan);
    assert IsStored(AddAll(pool, plan), plan[j]);
    assert Ids(plan)[j] == plan[j].taskId;
  }

  lemma ReleaseTaskAt(s: System, spec: TaskSpec, status: TaskStatus)
    requires Shape(s) && PendingFresh(s) && TaskAt(s, spec, status)
    ensures TaskAt(Release(s), spec, if status == CREATED && s.Store().DependenciesMet(spec) then QUEUED else status)
  {
    ReleaseEffect(s);
    assert Goes(s, spec.taskId) <==> status == CREATED && s.Store().DependenciesMet(spec);
  }

  lemma MoveTaskAt(s: System, r: System, i: nat, pc: Pc, status: TaskStatus, spec: TaskSpec, before: TaskStatus)
    requires Moved(s, r, i, pc, status) && TaskAt(s, spec, before) && !Pending(s, s.pipes[i].task) && status != CREATED
    ensures TaskAt(r, spec, if spec.taskId == s.pipes[i].task then status else before)
  {
    assert r.desk.pending == s.desk.pending;
  }

  lemma ExtractWaitsForNothing(n: nat, priority: int, c: nat)
    requires c < n
    ensures PlanOf(n, priority)[7 * c].taskId == TaskId("extract_ips", c + 1)
    ensures PlanOf(n, priority)[7 * c].dependencies == []
  {
    StageAt(n, priority, c, 0);
  }

  lemma FreeTaskStarts(s: System, spec: TaskSpec)
    requires Shape(s) && PendingFresh(s) && TaskAt(s, spec, CREATED) && spec.dependencies == []
    ensures HasPipe(Release(s).pipes, spec.taskId, AtStart)
  {
    ReleaseTaskAt(s, spec, CREATED);
    SpawnedPipes(s, spec.taskId);
  }

  /** The first stage of a chunk waits for nothing, so it is QUEUED and has a coroutine from the start. */
  lemma ExtractStarts(settings: Settings, cpuCount: nat, ioCount: nat, n: nat, priority: int, c: nat, from: System)
    requires from == Release(Loaded(StartUpPool(cpuCount, ioCount), StartUpBroker(), PlanOf(n, priority)))
    requires ReadyToRelease(Loaded(StartUpPool(cpuCount, ioCount), StartUpBroker(), PlanOf(n, priority))) && c < n
    ensures HasPipe(from.pipes, TaskId("extract_ips", c + 1), AtStart)
  {
    var loaded := Loaded(StartUpPool(cpuCount, ioCount), StartUpBroker(), PlanOf(n, priority));
    StartUpIsFresh(cpuCount, ioCount);
    PlanIsValid(n, priority);
    LoadedTaskAt(StartUpPool(cpuCount, ioCount), StartUpBroker(), PlanOf(n, priority), 7 * c);
    ExtractWaitsForNothing(n, priority, c);
    FreeTaskStarts(loaded, PlanOf(n, priority)[7 * c]);
  }

  // ---- All first stages in flight at once ----

  lemma ExtractIsIo(
    settings: Settings, cpuCount: nat, ioCount: nat, n: nat, priority: int, from: System, s: System, c: nat)
    requires Reached(settings, cpuCount, ioCount, n, priority, from, s) && c < n
    ensures TaskOfType(s.Tasks(), TaskId("extract_ips", c + 1), "io")
  {
    var run := RunTo(settings, cpuCount, ioCount, n, priority, from, s);
    RunHoldsPlan(settings, StartUpPool(cpuCount, ioCount), StartUpBroker(), PlanOf(n, priority), run, |run| - 1);
    StageAt(n, priority, c, 0);
    assert InStore(s.Store(), PlanOf(n, priority)[7 * c]);
  }

  /** What `f` counts on one task, and on all others. */
  function On(f: Pipe -> nat, id: string): Pipe -> nat {
    (p: Pipe) => if p.task == id then f(p) else 0
  }

  function Off(f: Pipe -> nat, id: string): Pipe -> nat {
    (p: Pipe) => if p.task == id then 0 else f(p)
  }

  ghost predicate Counted(pipes: seq<Pipe>, f: Pipe -> nat, id: string) {
    exists k :: 0 <= k < |pipes| && pipes[k].task == id && f(pipes[k]) > 0
  }

  /** Coroutines of different tasks count separately. */
  lemma {:induction false} CountsEach(pipes: seq<Pipe>, f: Pipe -> nat, ids: seq<string>)
    requires Distinct(ids) && forall c :: 0 <= c < |ids| ==> Counted(pipes, f, ids[c])
    ensures Sum(pipes, f) >= |ids|
  {
    if ids == [] {
    } else {
      var first, rest := ids[0], ids[1..];
      SumAdd(pipes, f, On(f, first), Off(f, first));
      assert Counted(pipes, f, first);
      var k :| 0 <= k < |pipes| && pipes[k].task == first && f(pipes[k]) > 0;
      SumUpdate(pipes, k, pipes[k], On(f, first));
      forall c | 0 <= c < |rest|
        ensures Counted(pipes, Off(f, first), rest[c])
      {
        assert Counted(pipes, f, ids[c + 1]) && rest[c] == ids[c + 1];
      }
      CountsEach(pipes, Off(f, first), rest);
    }
  }

  function Extracts(n: nat): (r: seq<string>)
    ensures |r| == n && forall c :: 0 <= c < n ==> r[c] == TaskId("extract_ips", c + 1)
  {
    seq(n, c requires 0 <= c < n => TaskId("extract_ips", c + 1))
  }

  lemma ExtractsDiffer(n: nat)
    ensures Distinct(Extracts(n))
  {
    forall c, d | 0 <= c < d < n
      ensures Extracts(n)[c] != Extracts(n)[d]
    {
      if TaskId("extract_ips", c + 1) == TaskId("extract_ips", d + 1) {
        TaskIdsDiffer(0, c + 1, 0, d + 1);
      }
    }
  }

  lemma PipeAt(s: System, id: string, stage: Stage) returns (k: nat)
    requires HasPipe(s.pipes, id, stage)
    ensures k < |s.pipes| && IsAt(s.pipes[k], id, stage)
  {
    k :| 0 <= k < |s.pipes| && IsAt(s.pipes[k], id, stage);
  }

  lemma AssignedCounts(pipes: seq<Pipe>, k: nat, tasks: map<string, Task>, workerType: string)
    requires k < |pipes| && pipes[k].pc.Assigned? && TaskOfType(tasks, pipes[k].task, workerType)
    ensures Counted(pipes, InFlightOfType(tasks, workerType), pipes[k].task)
  {
    assert InFlightOfType(tasks, workerType)(pipes[k]) == 1;
  }

  /** A coroutine at its start counts as in flight once everybody has started. */
  lemma StartedCounts(s: System, r: System, id: string, workerType: string)
    requires Taken(s, r) && HasPipe(s.pipes, id, AtStart) && Runnable(s.Store(), id)
    requires TaskOfType(r.Tasks(), id, workerType)
    ensures Counted(r.pipes, InFlightOfType(r.Tasks(), workerType), id)
  {
    var k := PipeAt(s, id, AtStart);
    assert TakenPipe(s.Store(), s.pipes[k], r.pipes[k]);
    AssignedCounts(r.pipes, k, r.Tasks(), workerType);
  }

  lemma ExtractCounts(
    settings: Settings, cpuCount: nat, ioCount: nat, n: nat, priority: int, from: System, s: System, c: nat)
    requires from == Release(Loaded(StartUpPool(cpuCount, ioCount), StartUpBroker(), PlanOf(n, priority)))
    requires ReadyToRelease(Loaded(StartUpPool(cpuCount, ioCount), StartUpBroker(), PlanOf(n, priority)))
    requires Reached(settings, cpuCount, ioCount, n, priority, from, from)
    requires Reached(settings, cpuCount, ioCount, n, priority, from, s)
    requires Taken(from, s) && c < n && cpuCount > 0 && ioCount > 0
    ensures Counted(s.pipes, InFlightOfType(s.Tasks(), "io"), TaskId("extract_ips", c + 1))
  {
    ExtractStarts(settings, cpuCount, ioCount, n, priority, c, from);
    ExtractIsIo(settings, cpuCount, ioCount, n, priority, from, s, c);
    ReachedIsStaffed(settings, cpuCount, ioCount, n, priority, from, s, TaskId("extract_ips", c + 1));
    StartedCounts(from, s, TaskId("extract_ips", c + 1), "io");
  }

  /** All first stages get their workers before the first of them finishes. */
  lemma ExtractsTaken(settings: Settings, cpuCount: nat, ioCount: nat, n: nat, priority: int)
    returns (from: System, s: System)
    requires cpuCount > 0 && ioCount > 0
    ensures Reached(settings, cpuCount, ioCount, n, priority, from, s)
    ensures Demand(s, "io") >= n && NoneAtStart(s)
  {
    from := StartExists(settings, cpuCount, ioCount, n, priority);
    ReachedHasShape(settings, cpuCount, ioCount, n, priority, from, from);
    s := AllStart(settings, from, from);
    forall c | 0 <= c < n
      ensures Counted(s.pipes, InFlightOfType(s.Tasks(), "io"), Extracts(n)[c])
    {
      ExtractCounts(settings, cpuCount, ioCount, n, priority, from, s, c);
    }
    ExtractsDiffer(n);
    CountsEach(s.pipes, InFlightOfType(s.Tasks(), "io"), Extracts(n));
  }

  lemma InitialTypes(s: System, pool: Store, broker: Broker<Message>, plan: seq<TaskSpec>, workerType: string)
    requires Initial(s, pool, broker, plan)
    ensures OfType(s.Store(), workerType) == OfType(pool, workerType)
  {
    AddAllEffect(pool, plan);
    LoadedIsReady(pool, broker, plan);
    ReleaseEffect(Loaded(pool, broker, plan));
    FilterSame(pool.workerOrder, HasType(s.Store(), workerType), HasType(pool, workerType));
  }

  lemma IoWorkers(
    settings: Settings, cpuCount: nat, ioCount: nat, n: nat, priority: int, from: System, s: System)
    requires Reached(settings, cpuCount, ioCount, n, priority, from, s)
    ensures |OfType(s.Store(), "io")| == ioCount && Books(settings, s)
  {
    var pool, broker, plan := StartUpPool(cpuCount, ioCount), StartUpBroker(), PlanOf(n, priority);
    var run := RunTo(settings, cpuCount, ioCount, n, priority, from, s);
    RunKeepsBooks(settings, pool, broker, plan, run, |run| - 1);
    SameTypesAlong(settings, pool, broker, plan, run, "io", |run| - 1);
    InitialTypes(run[0], pool, broker, plan, "io");
    RegistrationCounts(NOTHING, cpuCount, ioCount);
  }

  /**
   With more than four chunks per IO worker a run of the planned workload leads
   to a state in which the loads of the IO workers are not 25 per task in flight.
   */
  lemma LoadCanBeInexact(settings: Settings, cpuCount: nat, ioCount: nat, n: nat, priority: int)
    returns (run: seq<System>)
    requires cpuCount > 0 && ioCount > 0 && n > SLOTS * ioCount
    ensures IsWorkloadRun(settings, cpuCount, ioCount, n, priority, run) && !Exact(run[|run| - 1], "io")
  {
    var from, s := ExtractsTaken(settings, cpuCount, ioCount, n, priority);
    IoWorkers(settings, cpuCount, ioCount, n, priority, from, s);
    if Exact(s, "io") {
      ExactBoundsDemand(settings, s, "io");
    }
    run := RunTo(settings, cpuCount, ioCount, n, priority, from, s);
  }

  // ---- Idle with work in flight ----

  /** Pigeonhole: more coroutines than workers put two on one worker. */
  lemma {:induction false} SomeoneShares(pipes: seq<Pipe>, ws: seq<string>) returns (w: string)
    requires OnEach(pipes, ws) > |ws|
    ensures w in ws && Sum(pipes, InFlight(w)) >= 2
  {
    if Sum(pipes, InFlight(ws[0])) >= 2 {
      w := ws[0];
    } else {
      w := SomeoneShares(pipes, ws[1..]);
    }
  }

  lemma {:induction false} SomeCounts(pipes: seq<Pipe>, f: Pipe -> nat) returns (k: nat)
    requires Sum(pipes, f) > 0
    ensures k < |pipes| && f(pipes[k]) > 0
  {
    if f(pipes[0]) > 0 {
      k := 0;
    } else {
      k := SomeCounts(pipes[1..], f);
      k := k + 1;
    }
  }

  lemma ReleasedIsIdle(s: System, i: nat, result: TaskResult)
    requires i < |s.pipes| && s.pipes[i].pc.Running? && s.pipes[i].pc.worker in s.Store().workers
    ensures var w, r := s.pipes[i].pc.worker, FinishStep(s, i, result).Store();
            w in r.workers && r.workers[w].status == Idle
  {
  }

  /** One of the tasks on a shared worker finishes first: the worker is idle and still has work. */
  lemma FirstFinishes(settings: Settings, from: System, s: System, k: nat, w: string) returns (r: System)
    requires Reaches(settings, true, from, s) && Shape(s) && NoneAtStart(s)
    requires k < |s.pipes| && s.pipes[k].pc == Running(w)
    requires w in s.Store().workers && OnWorker(s, w) >= 2
    ensures Reaches(settings, true, from, r) && w in r.Store().workers
    ensures r.Store().workers[w].status == Idle && OnWorker(r, w) > 0
  {
    r := FinishMoves(settings, s, k);
    ReachesNext(settings, true, from, s, Finish(k, GoodResult(s.pipes[k].task, w)), r);
    SumUpdate(s.pipes, k, r.pipes[k], InFlight(w));
    ReleasedIsIdle(s, k, GoodResult(s.pipes[k].task, w));
  }

  lemma GetsToRun(settings: Settings, from: System, s: System, k: nat, w: string) returns (r: System)
    requires Reaches(settings, true, from, s) && Shape(s) && NoneAtStart(s)
    requires k < |s.pipes| && InFlight(w)(s.pipes[k]) > 0 && w in s.Store().workers
    ensures Reaches(settings, true, from, r) && Shape(r) && NoneAtStart(r)
    ensures k < |r.pipes| && r.pipes[k].pc == Running(w)
    ensures w in r.Store().workers && OnWorker(r, w) == OnWorker(s, w)
  {
    r := s;
    if s.pipes[k].pc.Assigned? {
      r := BeginsNext(settings, true, from, s, k);
      SumUpdate(s.pipes, k, r.pipes[k], InFlight(w));
    }
  }

  /**
   Idle does not mean free: with more chunks than IO workers a run of the planned
   workload leads to a worker that is idle and has a task in flight.
   */
  lemma IdleWithWorkInFlight(settings: Settings, cpuCount: nat, ioCount: nat, n: nat, priority: int)
    returns (run: seq<System>, w: string)
    requires cpuCount > 0 && ioCount > 0 && n > ioCount
    ensures IsWorkloadRun(settings, cpuCount, ioCount, n, priority, run)
    ensures var s := run[|run| - 1];
            w in s.Store().workers && s.Store().workers[w].status == Idle && OnWorker(s, w) > 0
  {
    var from, s := ExtractsTaken(settings, cpuCount, ioCount, n, priority);
    IoWorkers(settings, cpuCount, ioCount, n, priority, from, s);
    DemandByWorker(s, "io");
    w := SomeoneShares(s.pipes, OfType(s.Store(), "io"));
    FilterMember(s.Store().workerOrder, HasType(s.Store(), "io"), w);
    var k := SomeCounts(s.pipes, InFlight(w));
    var t := GetsToRun(settings, from, s, k, w);
    var r := FirstFinishes(settings, from, t, k, w);
    run := RunTo(settings, cpuCount, ioCount, n, priority, from, r);
  }

  // ---- VALIDATED overwritten ----

  /** Stage `l` of the first chunk. */
  function FirstChunk(l: nat, priority: int): TaskSpec
    requires l < 7
  {
    StageTask(PIPELINE_STAGES[l], 1, priority)
  }

  lemma FirstChunkDiffers(l: nat, m: nat, priority: int)
    requires l < 7 && m < 7 && l != m
    ensures FirstChunk(l, priority).taskId != FirstChunk(m, priority).taskId
  {
    if FirstChunk(l, priority).taskId == FirstChunk(m, priority).taskId {
      TaskIdsDiffer(l, 1, m, 1);
    }
  }

  /** The stages that stage `l` waits for. */
  function Needs(l: nat): seq<nat>
    requires l < 6
  {
    [[], [0], [1], [2], [2], [3, 4]][l]
  }

  lemma FirstChunkNeeds(l: nat, priority: int)
    requires l < 6
    ensures forall d :: 0 <= d < |Needs(l)| ==> Needs(l)[d] < l
    ensures |FirstChunk(l, priority).dependencies| == |Needs(l)|
    ensures forall d :: 0 <= d < |Needs(l)| ==>
              FirstChunk(l, priority).dependencies[d] == FirstChunk(Needs(l)[d], priority).taskId
  {
  }

  /** When stages 0..v-1 are validated, `l` comes next. */
  predicate InFront(v: nat, l: nat) { l == v || (v == 3 && l == 4) }

  /** The state of stage `l` when stages 0..v-1 are validated and those in front are in `x`. */
  function StageStatus(v: nat, x: TaskStatus, l: nat): TaskStatus {
    if l < v then VALIDATED else if InFront(v, l) then x else CREATED
  }

  ghost predicate Stages(s: System, priority: int, v: nat, x: TaskStatus) {
    && v <= 5 && x in {CREATED, QUEUED, ASSIGNED}
    && forall l :: 0 <= l < 6 ==> TaskAt(s, FirstChunk(l, priority), StageStatus(v, x, l))
  }

  /** A stage is ready when all it waits for is validated. */
  lemma ReadyIff(s: System, priority: int, v: nat, x: TaskStatus, l: nat)
    requires Stages(s, priority, v, x) && l < 6
    ensures s.Store().DependenciesMet(FirstChunk(l, priority)) <==>
            forall d :: 0 <= d < |Needs(l)| ==> Needs(l)[d] < v
  {
    var deps := FirstChunk(l, priority).dependencies;
    FirstChunkNeeds(l, priority);
    forall d | 0 <= d < |Needs(l)|
      ensures s.Store().Settled(deps[d]) <==> Needs(l)[d] < v
    {
      assert TaskAt(s, FirstChunk(Needs(l)[d], priority), StageStatus(v, x, Needs(l)[d]));
    }
  }

  lemma NeedsInFront(v: nat, l: nat)
    requires v <= 5 && v != 4 && v <= l < 6
    ensures InFront(v, l) <==> forall d :: 0 <= d < |Needs(l)| ==> Needs(l)[d] < v
  {
    assert |Needs(l)| > 0 ==> Needs(l)[0] in {0, 1, 2, 3};
  }

  // ---- Releasing the front ----

  lemma FrontReleases(s: System, priority: int, v: nat)
    requires Shape(s) && PendingFresh(s) && Stages(s, priority, v, CREATED) && v != 4
    ensures Stages(Release(s), priority, v, QUEUED)
  {
    forall l | 0 <= l < 6
      ensures TaskAt(Release(s), FirstChunk(l, priority), StageStatus(v, QUEUED, l))
    {
      var status := StageStatus(v, CREATED, l);
      assert TaskAt(s, FirstChunk(l, priority), status);
      ReleaseTaskAt(s, FirstChunk(l, priority), status);
      if l >= v {
        ReadyIff(s, priority, v, CREATED, l);
        NeedsInFront(v, l);
      }
    }
  }

  /** Only QUEUED tasks have coroutines at their start. */
  ghost predicate StartsAreQueued(s: System) {
    forall k :: 0 <= k < |s.pipes| && s.pipes[k].pc.Start? ==> s.Store().HasStatus(s.pipes[k].task, QUEUED)
  }

  /** The stages in front are QUEUED, and each has a coroutine at its start. */
  ghost predicate FrontQueued(s: System, priority: int, v: nat) {
    && Stages(s, priority, v, QUEUED) && StartsAreQueued(s)
    && forall l :: 0 <= l < 6 && InFront(v, l) ==> HasPipe(s.pipes, FirstChunk(l, priority).taskId, AtStart)
  }

  lemma ReleaseSpawnsFront(s: System, priority: int, v: nat)
    requires Shape(s) && PendingFresh(s) && NoneAtStart(s) && Stages(s, priority, v, CREATED) && v != 4
    ensures FrontQueued(Release(s), priority, v)
  {
    ReleaseEffect(s);
    SpawnedPipes(s, "");
    FrontReleases(s, priority, v);
    forall l | 0 <= l < 6 && InFront(v, l)
      ensures HasPipe(Release(s).pipes, FirstChunk(l, priority).taskId, AtStart)
    {
      assert TaskAt(Release(s), FirstChunk(l, priority), QUEUED);
      SpawnedPipes(s, FirstChunk(l, priority).taskId);
    }
    forall k | 0 <= k < |s.pipes|
      ensures !Release(s).pipes[k].pc.Start?
    {
      assert Release(s).pipes[k] == s.pipes[k];
    }
  }

  lemma FirstLoaded(cpuCount: nat, ioCount: nat, n: nat, priority: int, l: nat)
    requires n > 0 && l < 6
    ensures TaskAt(Loaded(StartUpPool(cpuCount, ioCount), StartUpBroker(), PlanOf(n, priority)),
                   FirstChunk(l, priority), CREATED)
  {
    StartUpIsFresh(cpuCount, ioCount);
    PlanIsValid(n, priority);
    StageAt(n, priority, 0, l);
    LoadedTaskAt(StartUpPool(cpuCount, ioCount), StartUpBroker(), PlanOf(n, priority), l);
  }

  /** Stages 0..v-1 of the first chunk are validated, the next are queued, and only turns led here. */
  ghost predicate AtFront(
    settings: Settings, cpuCount: nat, ioCount: nat, n: nat, priority: int, from: System, s: System, v: nat)
  {
    Reached(settings, cpuCount, ioCount, n, priority, from, s) && FrontQueued(s, priority, v)
  }

  /** Submitting the workload releases the first stage. */
  lemma StartsAtFront(settings: Settings, cpuCount: nat, ioCount: nat, n: nat, priority: int) returns (from: System)
    requires n > 0
    ensures AtFront(settings, cpuCount, ioCount, n, priority, from, from, 0)
  {
    from := StartExists(settings, cpuCount, ioCount, n, priority);
    var loaded := Loaded(StartUpPool(cpuCount, ioCount), StartUpBroker(), PlanOf(n, priority));
    forall l | 0 <= l < 6
      ensures TaskAt(loaded, FirstChunk(l, priority), StageStatus(0, CREATED, l))
    {
      FirstLoaded(cpuCount, ioCount, n, priority, l);
    }
    ReleaseSpawnsFront(loaded, priority, 0);
  }

  // ---- Starting and driving the front ----

  /** The stages in front are assigned, and nobody is waiting to start. */
  ghost predicate FrontAssigned(s: System, priority: int, v: nat) {
    && Stages(s, priority, v, ASSIGNED) && NoneAtStart(s)
    && forall l :: 0 <= l < 6 && InFront(v, l) ==> HasPipe(s.pipes, FirstChunk(l, priority).taskId, AtAssigned)
  }

  /** A task with a coroutine at its start was QUEUED and becomes ASSIGNED; others stay as they are. */
  lemma TaskStarts(s: System, r: System, spec: TaskSpec, status: TaskStatus)
    requires StartsAreQueued(s) && Taken(s, r) && TaskAt(s, spec, status) && Runnable(s.Store(), spec.taskId)
    ensures if HasPipe(s.pipes, spec.taskId, AtStart)
            then status == QUEUED && TaskAt(r, spec, ASSIGNED) && HasPipe(r.pipes, spec.taskId, AtAssigned)
            else TaskAt(r, spec, status)
  {
    assert TakenTask(s, r.Store(), spec.taskId);
    if HasPipe(s.pipes, spec.taskId, AtStart) {
      var k := PipeAt(s, spec.taskId, AtStart);
      assert s.Store().HasStatus(s.pipes[k].task, QUEUED);
      assert TakenPipe(s.Store(), s.pipes[k], r.pipes[k]) && IsAt(r.pipes[k], spec.taskId, AtAssigned);
    }
  }

  lemma StageStarts(s: System, r: System, priority: int, v: nat, l: nat)
    requires FrontQueued(s, priority, v) && Taken(s, r) && l < 6
    requires forall id :: id in s.Tasks() ==> Runnable(s.Store(), id)
    ensures TaskAt(r, FirstChunk(l, priority), StageStatus(v, ASSIGNED, l))
    ensures InFront(v, l) ==> HasPipe(r.pipes, FirstChunk(l, priority).taskId, AtAssigned)
  {
    assert TaskAt(s, FirstChunk(l, priority), StageStatus(v, QUEUED, l));
    TaskStarts(s, r, FirstChunk(l, priority), StageStatus(v, QUEUED, l));
  }

  lemma FrontStarts(s: System, r: System, priority: int, v: nat)
    requires FrontQueued(s, priority, v) && Taken(s, r) && NoneAtStart(r)
    requires forall id :: id in s.Tasks() ==> Runnable(s.Store(), id)
    ensures FrontAssigned(r, priority, v)
  {
    forall l | 0 <= l < 6
      ensures TaskAt(r, FirstChunk(l, priority), StageStatus(v, ASSIGNED, l))
      ensures InFront(v, l) ==> HasPipe(r.pipes, FirstChunk(l, priority).taskId, AtAssigned)
    {
      StageStarts(s, r, priority, v, l);
    }
  }

  /** Stage v has been taken to the critic; at v = 3 its sibling is still with its worker. */
  lemma StageMoves(s: System, r: System, i: nat, priority: int, v: nat)
    requires Stages(s, priority, v, ASSIGNED) && v < 5 && Moved(s, r, i, Judged, VALIDATED)
    requires s.pipes[i].task == FirstChunk(v, priority).taskId
    ensures Stages(r, priority, v + 1, if v == 3 then ASSIGNED else CREATED)
  {
    assert TaskAt(s, FirstChunk(v, priority), ASSIGNED);
    var x := if v == 3 then ASSIGNED else CREATED;
    forall l | 0 <= l < 6
      ensures TaskAt(r, FirstChunk(l, priority), StageStatus(v + 1, x, l))
    {
      if l != v {
        FirstChunkDiffers(l, v, priority);
      }
      assert TaskAt(s, FirstChunk(l, priority), StageStatus(v, ASSIGNED, l));
      MoveTaskAt(s, r, i, Judged, VALIDATED, FirstChunk(l, priority), StageStatus(v, ASSIGNED, l));
    }
  }

  lemma StageCanRun(s: System, k: nat, priority: int, v: nat)
    requires Shape(s) && Stages(s, priority, v, ASSIGNED) && v < 5 && k < |s.pipes|
    requires s.pipes[k].task == FirstChunk(v, priority).taskId && Runnable(s.Store(), s.pipes[k].task)
    ensures CanRun(s, k)
  {
    assert TaskAt(s, FirstChunk(v, priority), ASSIGNED);
    ReadyIff(s, priority, v, ASSIGNED, v);
    FirstChunkNeeds(v, priority);
    forall d | 0 <= d < |Needs(v)|
      ensures FirstChunk(Needs(v)[d], priority).taskId != FirstChunk(v, priority).taskId
    {
      FirstChunkDiffers(Needs(v)[d], v, priority);
    }
  }

  /** Stage v goes from its worker to the critic. */
  lemma StageDriven(settings: Settings, from: System, s: System, k: nat, priority: int, v: nat) returns (r: System)
    requires Reaches(settings, true, from, s) && Shape(s) && NoneAtStart(s)
    requires Stages(s, priority, v, ASSIGNED) && v < 5 && k < |s.pipes|
    requires IsAt(s.pipes[k], FirstChunk(v, priority).taskId, AtAssigned) && Runnable(s.Store(), s.pipes[k].task)
    ensures Reaches(settings, true, from, r) && Moved(s, r, k, Judged, VALIDATED) && NoneAtStart(r)
    ensures Stages(r, priority, v + 1, if v == 3 then ASSIGNED else CREATED)
  {
    StageCanRun(s, k, priority, v);
    r := DriveOn(settings, true, from, s, k);
    StageMoves(s, r, k, priority, v);
  }

  lemma MovedKeepsOther(s: System, r: System, i: nat, pc: Pc, status: TaskStatus, j: nat)
    requires Shape(s) && Moved(s, r, i, pc, status) && i != j && j < |s.pipes| && Runnable(s.Store(), s.pipes[j].task)
    ensures Shape(r) && j < |r.pipes| && r.pipes[j] == s.pipes[j] && Runnable(r.Store(), r.pipes[j].task)
  {
    MovedStaffed(s, r, i, pc, status);
  }

  lemma FrontIsAssigned(
    settings: Settings, cpuCount: nat, ioCount: nat, n: nat, priority: int, from: System, s: System, v: nat)
    returns (r: System)
    requires AtFront(settings, cpuCount, ioCount, n, priority, from, s, v) && cpuCount > 0 && ioCount > 0
    ensures Reached(settings, cpuCount, ioCount, n, priority, from, r) && FrontAssigned(r, priority, v)
    ensures Shape(r)
  {
    ReachedHasShape(settings, cpuCount, ioCount, n, priority, from, s);
    forall id | id in s.Tasks()
      ensures Runnable(s.Store(), id)
    {
      ReachedIsStaffed(settings, cpuCount, ioCount, n, priority, from, s, id);
    }
    r := AllStart(settings, from, s);
    FrontStarts(s, r, priority, v);
  }

  lemma StageIsRunnable(
    settings: Settings, cpuCount: nat, ioCount: nat, n: nat, priority: int, from: System, s: System, v: nat,
    x: TaskStatus, l: nat)
    requires Reached(settings, cpuCount, ioCount, n, priority, from, s) && cpuCount > 0 && ioCount > 0
    requires Stages(s, priority, v, x) && l < 6
    ensures Runnable(s.Store(), FirstChunk(l, priority).taskId)
  {
    assert TaskAt(s, FirstChunk(l, priority), StageStatus(v, x, l));
    ReachedIsStaffed(settings, cpuCount, ioCount, n, priority, from, s, FirstChunk(l, priority).taskId);
  }

  lemma EndKeepsStages(s: System, ended: System, priority: int, v: nat)
    requires ended.desk == s.desk && Stages(s, priority, v, CREATED)
    ensures Stages(ended, priority, v, CREATED)
  {
    forall l | 0 <= l < 6
      ensures TaskAt(ended, FirstChunk(l, priority), StageStatus(v, CREATED, l))
    {
      assert TaskAt(s, FirstChunk(l, priority), StageStatus(v, CREATED, l));
    }
  }

  /** The coroutine that has heard from the critic wakes up, and the next stages are released. */
  lemma FrontWakes(settings: Settings, from: System, s: System, k: nat, priority: int, v: nat) returns (r: System)
    requires Reaches(settings, true, from, s) && Shape(s) && PendingFresh(s) && NoneAtStart(s)
    requires Stages(s, priority, v, CREATED) && v != 4 && k < |s.pipes| && s.pipes[k].pc.Judged?
    ensures r == WakeStep(s, k) && Reaches(settings, true, from, r) && FrontQueued(r, priority, v)
  {
    var ended := s.(pipes := s.pipes[k := Pipe(s.pipes[k].task, Done)]);
    r := WakeStep(s, k);
    ReachesNext(settings, true, from, s, Wake(k), r);
    EndKeepsFresh(s, k);
    EndKeepsStages(s, ended, priority, v);
    ReleaseSpawnsFront(ended, priority, v);
  }

  lemma FrontAdvances(
    settings: Settings, cpuCount: nat, ioCount: nat, n: nat, priority: int, from: System, s: System, v: nat)
    returns (r: System)
    requires AtFront(settings, cpuCount, ioCount, n, priority, from, s, v) && cpuCount > 0 && ioCount > 0 && v < 3
    ensures AtFront(settings, cpuCount, ioCount, n, priority, from, r, v + 1)
  {
    var taken := FrontIsAssigned(settings, cpuCount, ioCount, n, priority, from, s, v);
    assert InFront(v, v);
    var k := PipeAt(taken, FirstChunk(v, priority).taskId, AtAssigned);
    StageIsRunnable(settings, cpuCount, ioCount, n, priority, from, taken, v, ASSIGNED, v);
    var judged := StageDriven(settings, from, taken, k, priority, v);
    ReachedHasShape(settings, cpuCount, ioCount, n, priority, from, judged);
    r := FrontWakes(settings, from, judged, k, priority, v + 1);
  }

  lemma FrontReached(settings: Settings, cpuCount: nat, ioCount: nat, n: nat, priority: int)
    returns (from: System, s: System)
    requires n > 0 && cpuCount > 0 && ioCount > 0
    ensures AtFront(settings, cpuCount, ioCount, n, priority, from, s, 3)
  {
    from := StartsAtFront(settings, cpuCount, ioCount, n, priority);
    s := from;
    for v := 0 to 3
      invariant AtFront(settings, cpuCount, ioCount, n, priority, from, s, v)
    {
      s := FrontAdvances(settings, cpuCount, ioCount, n, priority, from, s, v);
    }
  }

  // ---- Two siblings wake up in a row ----

  /** Two coroutines have heard from the critic, and what waits for both of their tasks is not released yet. */
  ghost predicate SiblingsJudged(s: System, priority: int, i: nat, j: nat) {
    && Shape(s) && NoneAtStart(s) && Stages(s, priority, 5, CREATED) && i != j
    && i < |s.pipes| && s.pipes[i].pc.Judged? && j < |s.pipes| && s.pipes[j].pc.Judged?
  }

  lemma MovedLeaves(s: System, r: System, j: nat, pc: Pc, status: TaskStatus, i: nat)
    requires Moved(s, r, j, pc, status) && i != j && i < |s.pipes|
    ensures Shape(r) && i < |r.pipes| && r.pipes[i] == s.pipes[i] && j < |r.pipes| && r.pipes[j].pc == pc
  {
  }

  lemma SecondDriven(settings: Settings, from: System, s: System, i: nat, j: nat, priority: int)
    returns (r: System)
    requires Reaches(settings, true, from, s) && Shape(s) && NoneAtStart(s) && Stages(s, priority, 4, ASSIGNED)
    requires i < |s.pipes| && s.pipes[i].pc.Judged? && i != j
    requires j < |s.pipes| && IsAt(s.pipes[j], FirstChunk(4, priority).taskId, AtAssigned)
    requires Runnable(s.Store(), s.pipes[j].task)
    ensures Reaches(settings, true, from, r) && SiblingsJudged(r, priority, i, j)
  {
    r := StageDriven(settings, from, s, j, priority, 4);
    MovedLeaves(s, r, j, Judged, VALIDATED, i);
  }

  lemma SiblingsDriven(settings: Settings, from: System, s: System, i: nat, j: nat, priority: int)
    returns (r: System)
    requires Reaches(settings, true, from, s) && Shape(s) && NoneAtStart(s) && Stages(s, priority, 3, ASSIGNED)
    requires i < |s.pipes| && IsAt(s.pipes[i], FirstChunk(3, priority).taskId, AtAssigned)
    requires j < |s.pipes| && IsAt(s.pipes[j], FirstChunk(4, priority).taskId, AtAssigned)
    requires Runnable(s.Store(), s.pipes[i].task) && Runnable(s.Store(), s.pipes[j].task)
    ensures Reaches(settings, true, from, r) && SiblingsJudged(r, priority, i, j)
  {
    FirstChunkDiffers(3, 4, priority);
    var half := StageDriven(settings, from, s, i, priority, 3);
    MovedKeepsOther(s, half, i, Judged, VALIDATED, j);
    r := SecondDriven(settings, from, half, i, j, priority);
  }

  lemma SiblingsReached(settings: Settings, cpuCount: nat, ioCount: nat, n: nat, priority: int)
    returns (from: System, s: System, i: nat, j: nat)
    requires cpuCount > 0 && ioCount > 0 && n > 0
    ensures Reached(settings, cpuCount, ioCount, n, priority, from, s) && SiblingsJudged(s, priority, i, j)
  {
    var queued;
    from, queued := FrontReached(settings, cpuCount, ioCount, n, priority);
    var taken := FrontIsAssigned(settings, cpuCount, ioCount, n, priority, from, queued, 3);
    assert InFront(3, 3) && InFront(3, 4);
    i := PipeAt(taken, FirstChunk(3, priority).taskId, AtAssigned);
    j := PipeAt(taken, FirstChunk(4, priority).taskId, AtAssigned);
    StageIsRunnable(settings, cpuCount, ioCount, n, priority, from, taken, 3, ASSIGNED, 3);
    StageIsRunnable(settings, cpuCount, ioCount, n, priority, from, taken, 3, ASSIGNED, 4);
    s := SiblingsDriven(settings, from, taken, i, j, priority);
  }

  lemma FrontIsUndisturbed(s: System, priority: int)
    requires Stages(s, priority, 5, QUEUED) && StartsAreQueued(s)
    ensures Undisturbed(s, FirstChunk(5, priority).taskId)
  {
    assert TaskAt(s, FirstChunk(5, priority), QUEUED);
    FirstChunkNeeds(5, priority);
    var deps := FirstChunk(5, priority).dependencies;
    forall d, m | d in deps && 0 <= m < |s.pipes|
      ensures !IsAt(s.pipes[m], d, AtStart)
    {
      var e :| 0 <= e < |deps| && deps[e] == d;
      assert TaskAt(s, FirstChunk(Needs(5)[e], priority), VALIDATED);
    }
  }

  /** After the first has woken up, the other will double the coroutine that it spawned. */
  lemma SecondWillDouble(s: System, priority: int, j: nat, k: nat)
    requires FrontQueued(s, priority, 5) && j < |s.pipes| && s.pipes[j].pc.Judged?
    requires k < |s.pipes| && IsAt(s.pipes[k], FirstChunk(5, priority).taskId, AtStart)
    requires Runnable(s.Store(), s.pipes[k].task)
    ensures WillDouble(s, j, k) && Undisturbed(s, s.pipes[k].task)
  {
    assert TaskAt(s, FirstChunk(5, priority), QUEUED);
    assert Needs(5) == [3, 4];
    ReadyIff(s, priority, 5, QUEUED, 5);
    FrontIsUndisturbed(s, priority);
  }

  lemma WakeKeepsJudged(s: System, i: nat, j: nat)
    requires Shape(s) && PendingFresh(s) && i < |s.pipes| && j < |s.pipes| && i != j
    ensures j < |WakeStep(s, i).pipes| && WakeStep(s, i).pipes[j] == s.pipes[j]
  {
    EndKeepsFresh(s, i);
    ReleaseEffect(s.(pipes := s.pipes[i := Pipe(s.pipes[i].task, Done)]));
  }

  lemma FirstWakes(
    settings: Settings, cpuCount: nat, ioCount: nat, n: nat, priority: int, from: System, s: System, i: nat, j: nat)
    returns (r: System, k: nat)
    requires Reached(settings, cpuCount, ioCount, n, priority, from, s) && cpuCount > 0 && ioCount > 0
    requires SiblingsJudged(s, priority, i, j)
    ensures Reached(settings, cpuCount, ioCount, n, priority, from, r)
    ensures WillDouble(r, j, k) && r.pipes[k].task == FirstChunk(5, priority).taskId && Undisturbed(r, r.pipes[k].task)
  {
    ReachedHasShape(settings, cpuCount, ioCount, n, priority, from, s);
    r := FrontWakes(settings, from, s, i, priority, 5);
    WakeKeepsJudged(s, i, j);
    assert InFront(5, 5);
    k := PipeAt(r, FirstChunk(5, priority).taskId, AtStart);
    StageIsRunnable(settings, cpuCount, ioCount, n, priority, from, r, 5, QUEUED, 5);
    SecondWillDouble(r, priority, j, k);
  }

  lemma ReachedIsOverwritten(
    settings: Settings, cpuCount: nat, ioCount: nat, n: nat, priority: int, from: System, s: System, j: nat, k: nat)
    returns (run: seq<System>)
    requires Reached(settings, cpuCount, ioCount, n, priority, from, s)
    requires WillDouble(s, j, k) && Undisturbed(s, s.pipes[k].task)
    ensures IsWorkloadRun(settings, cpuCount, ioCount, n, priority, run)
    ensures EndsOverwritten(run, s.pipes[k].task, COMPLETED)
  {
    var part := RunTo(settings, cpuCount, ioCount, n, priority, from, s);
    run := TakenUpTwiceInTurn(
      settings, StartUpPool(cpuCount, ioCount), StartUpBroker(), PlanOf(n, priority), part, j, k);
    GoesOnThrough(settings, true, part, run, 0);
  }

  /**
   VALIDATED is not final: whatever the number of chunks and workers, a run of the
   planned workload, with everybody in turn, leads to a state in which the first
   chunk's pattern detection goes from VALIDATED back to COMPLETED.
   */
  lemma ValidatedCanBeOverwritten(settings: Settings, cpuCount: nat, ioCount: nat, n: nat, priority: int)
    returns (run: seq<System>)
    requires cpuCount > 0 && ioCount > 0 && n > 0
    ensures IsWorkloadRun(settings, cpuCount, ioCount, n, priority, run)
    ensures EndsOverwritten(run, TaskId("pattern_detect", 1), COMPLETED)
  {
    var from, s, i, j := SiblingsReached(settings, cpuCount, ioCount, n, priority);
    var r, k := FirstWakes(settings, cpuCount, ioCount, n, priority, from, s, i, j);
    run := ReachedIsOverwritten(settings, cpuCount, ioCount, n, priority, from, r, j, k);
    assert PIPELINE_STAGES[5].stage == "pattern_detect";
  }
}
