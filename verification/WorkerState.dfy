/**
 What a worker's busy flag means: it follows the latest event about the worker,
 and tells whether tasks are in flight only if no worker is ever handed back
 while it has others.
 */
module WorkerStates {
  import opened Collections
  import opened Models
  import opened TaskStores
  import opened MemoryQueues
  import opened Schedulers
  import opened Pipelines
  import opened Lifecycle
  import opened Accounting

  predicate Touches(e: Event, w: string) {
    (e.TaskAssigned? || e.TaskFailed? || e.TaskCompleted?) && e.worker == w
  }

  /** The latest assignment to or release of a worker. */
  function Latest(log: seq<Event>, w: string): Option<Event> {
    if log == [] then None
    else if Touches(log[|log| - 1], w) then Some(log[|log| - 1])
    else Latest(log[..|log| - 1], w)
  }

  lemma LatestAppend(log: seq<Event>, e: Event, w: string)
    ensures Latest(log + [e], w) == if Touches(e, w) then Some(e) else Latest(log, w)
  {
    assert (log + [e])[..|log|] == log;
  }

  /** The flag and the current task follow the latest event alone. */
  ghost predicate Shows(worker: WorkerStatus, latest: Option<Event>) {
    if latest.Some? && latest.value.TaskAssigned?
    then worker.status == Busy && worker.currentTask == Some(latest.value.task)
    else worker.status == Idle && worker.currentTask == None
  }

  ghost predicate FlagsFollow(s: System) {
    forall w :: w in s.Store().workers ==> Shows(s.Store().workers[w], Latest(s.log, w))
  }

  lemma AssignKeepsFlags(s: System, i: nat)
    requires Shape(s) && FlagsFollow(s) && i < |s.pipes| && (s.pipes[i].pc.Start? || s.pipes[i].pc.Waiting?)
    ensures FlagsFollow(AssignStep(s, i))
  {
    var pc, store, status, event := AssignShape(s, i);
    forall w | w in store.workers
      ensures Shows(store.workers[w], Latest(s.log + [event], w))
    {
      LatestAppend(s.log, event, w);
    }
  }

  lemma FinishKeepsFlags(s: System, i: nat, result: TaskResult)
    requires Shape(s) && FlagsFollow(s) && i < |s.pipes| && s.pipes[i].pc.Running?
    ensures FlagsFollow(FinishStep(s, i, result))
  {
    var pc, store, status, event := FinishShape(s, i, result);
    forall w | w in store.workers
      ensures Shows(store.workers[w], Latest(s.log + [event], w))
    {
      LatestAppend(s.log, event, w);
    }
  }

  lemma QuietKeepsFlags(s: System, i: nat, pc: Pc, store: Store, event: Event)
    requires FlagsFollow(s) && i < |s.pipes| && store.workers == s.Store().workers
    requires !event.TaskAssigned? && !event.TaskFailed? && !event.TaskCompleted?
    ensures FlagsFollow(Advance(s, i, pc, store, event))
  {
    forall w | w in store.workers
      ensures Shows(store.workers[w], Latest(s.log + [event], w))
    {
      LatestAppend(s.log, event, w);
    }
  }

  lemma BeginKeepsFlags(s: System, i: nat)
    requires Shape(s) && FlagsFollow(s) && i < |s.pipes| && s.pipes[i].pc.Assigned?
    ensures FlagsFollow(BeginStep(s, i))
  {
    var pc, store, status, event := BeginShape(s, i);
    QuietKeepsFlags(s, i, pc, store, event);
  }

  lemma RecoverKeepsFlags(settings: Settings, s: System, i: nat, jitter: real)
    requires Shape(s) && FlagsFollow(s) && i < |s.pipes| && s.pipes[i].pc.Failed?
    ensures FlagsFollow(RecoverStep(settings, s, i, jitter))
  {
    var pc, store, status, event := RecoverShape(settings, s, i, jitter);
    QuietKeepsFlags(s, i, pc, store, event);
  }

  lemma JudgeKeepsFlags(s: System, i: nat, variance: int)
    requires Shape(s) && FlagsFollow(s) && i < |s.pipes| && s.pipes[i].pc.Completed?
    ensures FlagsFollow(JudgeStep(s, i, variance))
  {
    var pc, store, status, event := JudgeShape(s, i, variance);
    QuietKeepsFlags(s, i, pc, store, event);
  }

  lemma WakeKeepsFlags(s: System, i: nat)
    requires Shape(s) && PendingFresh(s) && FlagsFollow(s) && i < |s.pipes|
    ensures FlagsFollow(WakeStep(s, i))
  {
    EndKeepsFresh(s, i);
    ReleaseEffect(s.(pipes := s.pipes[i := Pipe(s.pipes[i].task, Done)]));
  }

  lemma ApplyKeepsFlags(settings: Settings, s: System, a: Action)
    requires Shape(s) && PendingFresh(s) && FlagsFollow(s) && Enabled(s, a)
    ensures FlagsFollow(Apply(settings, s, a))
  {
    match a {
      case Assign(i) => AssignKeepsFlags(s, i);
      case Begin(i) => BeginKeepsFlags(s, i);
      case Finish(i, result) => FinishKeepsFlags(s, i, result);
      case Recover(i, jitter) => RecoverKeepsFlags(settings, s, i, jitter);
      case Respawn(i) =>
      case Judge(i, variance) => JudgeKeepsFlags(s, i, variance);
      case Wake(i) => WakeKeepsFlags(s, i);
    }
  }

  lemma StepKeepsFlags(settings: Settings, s: System, s': System)
    requires Shape(s) && PendingFresh(s) && FlagsFollow(s) && Next(settings, s, s')
    ensures FlagsFollow(s')
  {
    var a :| StepBy(settings, s, a, s');
    ApplyKeepsFlags(settings, s, a);
  }

  lemma InitialFlags(s: System, pool: Store, broker: Broker<Message>, plan: seq<TaskSpec>)
    requires Initial(s, pool, broker, plan)
    ensures FlagsFollow(s)
  {
    AddAllEffect(pool, plan);
    LoadedIsReady(pool, broker, plan);
    ReleaseEffect(Loaded(pool, broker, plan));
  }

  lemma FlagsPassOn(
    settings: Settings, pool: Store, broker: Broker<Message>, plan: seq<TaskSpec>, run: seq<System>, j: nat)
    requires IsRun(settings, pool, broker, plan, run) && j + 1 < |run| && FlagsFollow(run[j])
    ensures FlagsFollow(run[j + 1])
  {
    RunKeepsShape(settings, pool, broker, plan, run, j);
    RunKeepsFresh(settings, pool, broker, plan, run, j);
    assert Next(settings, run[j], run[j + 1]);
    StepKeepsFlags(settings, run[j], run[j + 1]);
  }

  /**
   In every reachable state a worker is busy, with the task it shows, exactly
   when the latest event about it is that task's assignment; after a release it
   is idle.
   */
  lemma FlagFollowsLatestEvent(
    settings: Settings, pool: Store, broker: Broker<Message>, plan: seq<TaskSpec>, run: seq<System>, k: nat, w: string)
    requires IsRun(settings, pool, broker, plan, run) && k < |run| && w in run[k].Store().workers
    ensures var worker, latest := run[k].Store().workers[w], Latest(run[k].log, w);
            && (worker.status == Busy <==> latest.Some? && latest.value.TaskAssigned?)
            && (worker.status == Busy ==> worker.currentTask == Some(latest.value.task))
            && (worker.status != Busy ==> worker.status == Idle && worker.currentTask == None)
  {
    InitialFlags(run[0], pool, broker, plan);
    forall j | 0 <= j < |run| - 1 && FlagsFollow(run[j])
      ensures FlagsFollow(run[j + 1])
    {
      FlagsPassOn(settings, pool, broker, plan, run, j);
    }
    HoldsAlong(run, (s: System) => FlagsFollow(s), 0, k);
  }

  // ---- When idle means free ----

  /** The flag tells whether the worker has work in flight. */
  ghost predicate FlagIsRight(s: System, w: string) {
    w in s.Store().workers && (s.Store().workers[w].status == Busy <==> OnWorker(s, w) > 0)
  }

  ghost predicate SharedReleaseBy(settings: Settings, s: System, i: nat, result: TaskResult, s': System, w: string) {
    StepBy(settings, s, Finish(i, result), s') && s.pipes[i].pc.worker == w && OnWorker(s, w) >= 2
  }

  /** A coroutine hands its worker back while the worker has other work in flight. */
  ghost predicate SharedRelease(settings: Settings, s: System, s': System, w: string) {
    exists i: nat, result :: SharedReleaseBy(settings, s, i, result, s', w)
  }

  lemma EngagedIsRight(s: System, i: nat, store: Store, event: Event, w: string)
    requires i < |s.pipes| && w in store.workers && store.workers[w].status == Busy
    ensures FlagIsRight(Advance(s, i, Assigned(w), store, event), w)
  {
    SumUpdate(s.pipes, i, Pipe(s.pipes[i].task, Assigned(w)), InFlight(w));
  }

  lemma BystanderIsRight(s: System, i: nat, pc: Pc, store: Store, event: Event, w: string)
    requires i < |s.pipes| && FlagIsRight(s, w) && w in store.workers && store.workers[w] == s.Store().workers[w]
    requires InFlight(w)(s.pipes[i]) == InFlight(w)(Pipe(s.pipes[i].task, pc))
    ensures FlagIsRight(Advance(s, i, pc, store, event), w)
  {
    SumUpdate(s.pipes, i, Pipe(s.pipes[i].task, pc), InFlight(w));
  }

  lemma AssignKeepsRight(s: System, i: nat, w: string)
    requires Shape(s) && i < |s.pipes| && (s.pipes[i].pc.Start? || s.pipes[i].pc.Waiting?) && FlagIsRight(s, w)
    ensures FlagIsRight(AssignStep(s, i), w)
  {
    var pc, store, status, event := AssignShape(s, i);
    if pc == Assigned(w) {
      EngagedIsRight(s, i, store, event, w);
    } else {
      BystanderIsRight(s, i, pc, store, event, w);
    }
  }

  /** After a release the worker is idle, and free exactly when it had nothing else. */
  lemma FinishAndFlag(s: System, i: nat, result: TaskResult, w: string)
    requires Shape(s) && i < |s.pipes| && s.pipes[i].pc.Running? && w in s.Store().workers
    ensures w in FinishStep(s, i, result).Store().workers
    ensures s.pipes[i].pc.worker != w && FlagIsRight(s, w) ==> FlagIsRight(FinishStep(s, i, result), w)
    ensures s.pipes[i].pc.worker == w ==> (FlagIsRight(FinishStep(s, i, result), w) <==> OnWorker(s, w) < 2)
  {
    var pc, store, status, event := FinishShape(s, i, result);
    SumUpdate(s.pipes, i, Pipe(s.pipes[i].task, pc), InFlight(w));
  }

  lemma BeginKeepsRight(s: System, i: nat, w: string)
    requires Shape(s) && i < |s.pipes| && s.pipes[i].pc.Assigned? && FlagIsRight(s, w)
    ensures FlagIsRight(BeginStep(s, i), w)
  {
    var pc, store, status, event := BeginShape(s, i);
    BystanderIsRight(s, i, pc, store, event, w);
  }

  lemma RecoverKeepsRight(settings: Settings, s: System, i: nat, jitter: real, w: string)
    requires Shape(s) && i < |s.pipes| && s.pipes[i].pc.Failed? && FlagIsRight(s, w)
    ensures FlagIsRight(RecoverStep(settings, s, i, jitter), w)
  {
    var pc, store, status, event := RecoverShape(settings, s, i, jitter);
    BystanderIsRight(s, i, pc, store, event, w);
  }

  lemma JudgeKeepsRight(s: System, i: nat, variance: int, w: string)
    requires Shape(s) && i < |s.pipes| && s.pipes[i].pc.Completed? && FlagIsRight(s, w)
    ensures FlagIsRight(JudgeStep(s, i, variance), w)
  {
    var pc, store, status, event := JudgeShape(s, i, variance);
    BystanderIsRight(s, i, pc, store, event, w);
  }

  lemma RespawnKeepsRight(s: System, i: nat, w: string)
    requires i < |s.pipes| && s.pipes[i].pc.Backoff? && FlagIsRight(s, w)
    ensures FlagIsRight(RespawnStep(s, i), w)
  {
    EditUncounted(s.pipes, i, Pipe(s.pipes[i].task, Done), [Pipe(s.pipes[i].task, Start)], InFlight(w));
  }

  lemma ReleaseKeepsRight(s: System, w: string)
    requires Shape(s) && PendingFresh(s) && FlagIsRight(s, w)
    ensures FlagIsRight(Release(s), w)
  {
    ReleaseEffect(s);
    ReleaseKeepsSums(s, InFlight(w));
  }

  lemma WakeKeepsRight(s: System, i: nat, w: string)
    requires Shape(s) && PendingFresh(s) && i < |s.pipes| && s.pipes[i].pc.Judged? && FlagIsRight(s, w)
    ensures FlagIsRight(WakeStep(s, i), w)
  {
    var ended := s.(pipes := s.pipes[i := Pipe(s.pipes[i].task, Done)]);
    SumUpdate(s.pipes, i, Pipe(s.pipes[i].task, Done), InFlight(w));
    EndKeepsFresh(s, i);
    ReleaseKeepsRight(ended, w);
  }

  lemma ApplyKeepsRight(settings: Settings, s: System, a: Action, w: string)
    requires Shape(s) && PendingFresh(s) && Enabled(s, a) && FlagIsRight(s, w)
    requires !SharedRelease(settings, s, Apply(settings, s, a), w)
    ensures FlagIsRight(Apply(settings, s, a), w)
  {
    match a {
      case Assign(i) => AssignKeepsRight(s, i, w);
      case Begin(i) => BeginKeepsRight(s, i, w);
      case Finish(i, result) =>
        FinishAndFlag(s, i, result, w);
        assert !SharedReleaseBy(settings, s, i, result, Apply(settings, s, a), w);
      case Recover(i, jitter) => RecoverKeepsRight(settings, s, i, jitter, w);
      case Respawn(i) => RespawnKeepsRight(s, i, w);
      case Judge(i, variance) => JudgeKeepsRight(s, i, variance, w);
      case Wake(i) => WakeKeepsRight(s, i, w);
    }
  }

  lemma RightPassesOn(
    settings: Settings, pool: Store, broker: Broker<Message>, plan: seq<TaskSpec>, run: seq<System>, j: nat, w: string)
    requires IsRun(settings, pool, broker, plan, run) && j + 1 < |run| && FlagIsRight(run[j], w)
    requires !SharedRelease(settings, run[j], run[j + 1], w)
    ensures FlagIsRight(run[j + 1], w)
  {
    RunKeepsShape(settings, pool, broker, plan, run, j);
    RunKeepsFresh(settings, pool, broker, plan, run, j);
    assert Next(settings, run[j], run[j + 1]);
    var a :| StepBy(settings, run[j], a, run[j + 1]);
    ApplyKeepsRight(settings, run[j], a, w);
  }

  lemma InitiallyRight(s: System, pool: Store, broker: Broker<Message>, plan: seq<TaskSpec>, w: string)
    requires Initial(s, pool, broker, plan) && w in pool.workers
    ensures FlagIsRight(s, w)
  {
    AddAllEffect(pool, plan);
    LoadedIsReady(pool, broker, plan);
    ReleaseKeepsRight(Loaded(pool, broker, plan), w);
  }

  lemma SharedMakesWrong(
    settings: Settings, pool: Store, broker: Broker<Message>, plan: seq<TaskSpec>, run: seq<System>, j: nat, w: string)
    requires IsRun(settings, pool, broker, plan, run) && j + 1 < |run| && SharedRelease(settings, run[j], run[j + 1], w)
    ensures !FlagIsRight(run[j + 1], w)
  {
    RunKeepsShape(settings, pool, broker, plan, run, j);
    var i: nat, result :| SharedReleaseBy(settings, run[j], i, result, run[j + 1], w);
    if w in run[j].Store().workers {
      FinishAndFlag(run[j], i, result, w);
    } else {
      var pc, store, status, event := FinishShape(run[j], i, result);
    }
  }

  /**
   Throughout a run a worker is busy exactly when it has work in flight, if and
   only if it is never handed back while it has two or more tasks in flight.
   */
  lemma IdleMeansFreeIff(
    settings: Settings, pool: Store, broker: Broker<Message>, plan: seq<TaskSpec>, run: seq<System>, w: string)
    requires IsRun(settings, pool, broker, plan, run) && w in pool.workers
    ensures (forall k :: 0 <= k < |run| ==> FlagIsRight(run[k], w)) <==>
            (forall j :: 0 <= j < |run| - 1 ==> !SharedRelease(settings, run[j], run[j + 1], w))
  {
    if forall j :: 0 <= j < |run| - 1 ==> !SharedRelease(settings, run[j], run[j + 1], w) {
      InitiallyRight(run[0], pool, broker, plan, w);
      forall j | 0 <= j < |run| - 1 && FlagIsRight(run[j], w)
        ensures FlagIsRight(run[j + 1], w)
      {
        RightPassesOn(settings, pool, broker, plan, run, j, w);
      }
      forall k | 0 <= k < |run|
        ensures FlagIsRight(run[k], w)
      {
        HoldsAlong(run, (s: System) => FlagIsRight(s, w), 0, k);
      }
    }
    forall j | 0 <= j < |run| - 1 && SharedRelease(settings, run[j], run[j + 1], w)
      ensures !FlagIsRight(run[j + 1], w)
    {
      SharedMakesWrong(settings, pool, broker, plan, run, j, w);
    }
  }
}
