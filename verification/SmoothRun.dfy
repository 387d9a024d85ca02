/**
 Runs in which nothing goes wrong: no coroutines overlap, workers return proper
 results, and no task fails. Every such run can be continued to rest in the same way.
 */
module SmoothRuns {
  import opened Models
  import opened TaskStores
  import opened MemoryQueues
  import opened Schedulers
  import opened Pipelines
  import opened Lifecycle
  import opened Termination
  import opened Exclusive
  import opened EndToEnd
  import opened Overlap
  import opened Driving

  /** No coroutine has a failure behind it, and completed results are proper. */
  predicate SmoothPc(pc: Pc) {
    match pc
    case Failed(_) => false
    case Backoff(_) => false
    case Completed(result) => Delivered(result)
    case _ => true
  }

  ghost predicate Smooth(s: System) {
    (forall k :: 0 <= k < |s.pipes| ==> SmoothPc(s.pipes[k].pc)) && NoDeadLetter(s)
  }

  ghost predicate IsSmoothRun(
    settings: Settings, pool: Store, broker: Broker<Message>, plan: seq<TaskSpec>, run: seq<System>)
  {
    IsExclusiveRun(settings, pool, broker, plan, run) && forall k :: 0 <= k < |run| ==> Smooth(run[k])
  }

  lemma SmoothDelivers(
    settings: Settings, pool: Store, broker: Broker<Message>, plan: seq<TaskSpec>, run: seq<System>)
    requires IsSmoothRun(settings, pool, broker, plan, run)
    ensures WorkersDeliver(run) && forall k :: 0 <= k < |run| ==> NoDeadLetter(run[k])
  {
    forall k, i | 0 <= k < |run| && 0 <= i < |run[k].pipes| && run[k].pipes[i].pc.Completed?
      ensures Delivered(run[k].pipes[i].pc.result)
    {
      assert Smooth(run[k]) && SmoothPc(run[k].pipes[i].pc);
    }
  }

  // ---- One step ----

  /** What coroutine `i` does next when its worker returns a proper result. */
  function SmoothAction(s: System, i: nat): Action
    requires i < |s.pipes|
  {
    match s.pipes[i].pc
    case Assigned(_) => Begin(i)
    case Running(w) => Finish(i, GoodResult(s.pipes[i].task, w))
    case Completed(_) => Judge(i, 3)
    case Judged => Wake(i)
    case _ => Assign(i)
  }

  lemma AdvanceKeepsSmooth(s: System, i: nat, pc: Pc, store: Store, event: Event)
    requires Smooth(s) && i < |s.pipes| && SmoothPc(pc) && !event.DeadLettered?
    ensures Smooth(Advance(s, i, pc, store, event))
  {
  }

  lemma ReleaseKeepsSmooth(s: System)
    requires Shape(s) && PendingFresh(s) && Smooth(s)
    ensures Smooth(Release(s))
  {
    ReleaseEffect(s);
    SpawnedPipes(s, "");
    forall k | 0 <= k < |Release(s).pipes|
      ensures SmoothPc(Release(s).pipes[k].pc)
    {
      if k < |s.pipes| {
        assert Release(s).pipes[k] == s.pipes[k];
      }
    }
  }

  lemma WakeKeepsSmooth(s: System, i: nat)
    requires Shape(s) && PendingFresh(s) && Smooth(s) && i < |s.pipes|
    ensures Smooth(WakeStep(s, i))
  {
    var ended := s.(pipes := s.pipes[i := Pipe(s.pipes[i].task, Done)]);
    EndKeepsFresh(s, i);
    ReleaseKeepsSmooth(ended);
  }

  lemma AssignIsSmooth(s: System, i: nat)
    requires Shape(s) && Smooth(s) && i < |s.pipes| && (s.pipes[i].pc.Start? || s.pipes[i].pc.Waiting?)
    ensures Smooth(AssignStep(s, i))
  {
    var pc, store, status, event := AssignShape(s, i);
    AdvanceKeepsSmooth(s, i, pc, store, event);
  }

  lemma BeginIsSmooth(s: System, i: nat)
    requires Shape(s) && Smooth(s) && i < |s.pipes| && s.pipes[i].pc.Assigned?
    ensures Smooth(BeginStep(s, i))
  {
    var pc, store, status, event := BeginShape(s, i);
    AdvanceKeepsSmooth(s, i, pc, store, event);
  }

  lemma FinishIsSmooth(s: System, i: nat)
    requires Shape(s) && Smooth(s) && i < |s.pipes| && s.pipes[i].pc.Running?
    ensures Smooth(FinishStep(s, i, GoodResult(s.pipes[i].task, s.pipes[i].pc.worker)))
  {
    var pc, store, status, event := FinishShape(s, i, GoodResult(s.pipes[i].task, s.pipes[i].pc.worker));
    AdvanceKeepsSmooth(s, i, pc, store, event);
  }

  lemma JudgeIsSmooth(s: System, i: nat)
    requires Shape(s) && Smooth(s) && i < |s.pipes| && s.pipes[i].pc.Completed?
    ensures Smooth(JudgeStep(s, i, 3))
  {
    var pc, store, status, event := JudgeShape(s, i, 3);
    AdvanceKeepsSmooth(s, i, pc, store, event);
  }

  lemma SmoothStep(settings: Settings, s: System, i: nat) returns (s': System)
    requires Shape(s) && PendingFresh(s) && Smooth(s) && i < |s.pipes| && Live(s.pipes[i])
    ensures StepBy(settings, s, SmoothAction(s, i), s') && Smooth(s')
  {
    assert SmoothPc(s.pipes[i].pc);
    match s.pipes[i].pc {
      case Assigned(_) => BeginIsSmooth(s, i);
      case Running(_) => FinishIsSmooth(s, i);
      case Completed(_) => JudgeIsSmooth(s, i);
      case Judged => WakeKeepsSmooth(s, i);
      case _ => AssignIsSmooth(s, i);
    }
    s' := Apply(settings, s, SmoothAction(s, i));
  }

  /** Coroutines that still want a worker go first: then no wake-up meets one. */
  lemma NextInLine(s: System) returns (i: nat)
    requires QueuedUntaken(s) && !s.Quiescent()
    ensures i < |s.pipes| && Live(s.pipes[i])
    ensures s.pipes[i].pc.Start? || s.pipes[i].pc.Waiting? || QueuedAreFree(s)
  {
    if k :| 0 <= k < |s.pipes| && (s.pipes[k].pc.Start? || s.pipes[k].pc.Waiting?) {
      i := k;
    } else {
      i :| 0 <= i < |s.pipes| && Live(s.pipes[i]);
      assert QueuedAreFree(s);
    }
  }

  lemma CarefulSmoothStep(settings: Settings, s: System) returns (s': System)
    requires Shape(s) && PendingFresh(s) && QueuedUntaken(s) && NoOverlap(s) && Smooth(s) && !s.Quiescent()
    ensures Next(settings, s, s') && NoOverlap(s') && Smooth(s')
  {
    var i := NextInLine(s);
    s' := SmoothStep(settings, s, i);
    assert Next(settings, s, s');
    if s.pipes[i].pc.Start? || s.pipes[i].pc.Waiting? {
      AssignKeepsApart(s, i);
    } else {
      StepKeepsApart(settings, s, s');
    }
  }

  // ---- Whole runs ----

  lemma SmoothRunGrows(
    settings: Settings, pool: Store, broker: Broker<Message>, plan: seq<TaskSpec>, run: seq<System>, s': System)
    requires IsSmoothRun(settings, pool, broker, plan, run) && NoOverlap(s') && Smooth(s')
    requires Next(settings, run[|run| - 1], s')
    ensures IsSmoothRun(settings, pool, broker, plan, run + [s'])
  {
    CarefulRunGrows(settings, pool, broker, plan, run, s');
    var longer := run + [s'];
    assert forall k :: 0 <= k < |longer| ==> longer[k] == if k < |run| then run[k] else s';
  }

  ghost function AllSmoothRuns(
    settings: Settings, pool: Store, broker: Broker<Message>, plan: seq<TaskSpec>): seq<System> -> bool
  {
    (r: seq<System>) => IsSmoothRun(settings, pool, broker, plan, r)
  }

  lemma SmoothCanDescend(
    settings: Settings, pool: Store, broker: Broker<Message>, plan: seq<TaskSpec>, run: seq<System>)
    requires IsSmoothRun(settings, pool, broker, plan, run) && !run[|run| - 1].Quiescent()
    ensures CanDescend(run, AllSmoothRuns(settings, pool, broker, plan), RankOf(settings))
  {
    RunKeepsLifecycle(settings, pool, broker, plan, run, |run| - 1);
    var s' := CarefulSmoothStep(settings, run[|run| - 1]);
    StepDecreases(settings, run[|run| - 1], s');
    SmoothRunGrows(settings, pool, broker, plan, run, s');
    assert AllSmoothRuns(settings, pool, broker, plan)(run + [s']);
  }

  lemma SmoothRunsDescend(settings: Settings, pool: Store, broker: Broker<Message>, plan: seq<TaskSpec>)
    ensures AllCanDescend(AllSmoothRuns(settings, pool, broker, plan), RankOf(settings))
  {
    forall run: seq<System> |
      AllSmoothRuns(settings, pool, broker, plan)(run) && run != [] && !run[|run| - 1].Quiescent()
      ensures CanDescend(run, AllSmoothRuns(settings, pool, broker, plan), RankOf(settings))
    {
      SmoothCanDescend(settings, pool, broker, plan, run);
    }
  }

  /** Whatever has gone smoothly so far can go smoothly to the end. */
  lemma CanEndSmoothly(
    settings: Settings, pool: Store, broker: Broker<Message>, plan: seq<TaskSpec>, run: seq<System>)
    returns (whole: seq<System>)
    requires IsSmoothRun(settings, pool, broker, plan, run)
    ensures IsSmoothRun(settings, pool, broker, plan, whole) && run <= whole && whole[|whole| - 1].Quiescent()
  {
    var good := AllSmoothRuns(settings, pool, broker, plan);
    SmoothRunsDescend(settings, pool, broker, plan);
    whole := Descend(run, good, RankOf(settings));
    assert good(whole);
  }

  /** A workload begins smoothly. */
  lemma StartsSmoothly(settings: Settings, pool: Store, broker: Broker<Message>, plan: seq<TaskSpec>, s: System)
    requires Initial(s, pool, broker, plan)
    ensures IsSmoothRun(settings, pool, broker, plan, [s])
  {
    InitiallyApart(s, pool, broker, plan);
    LoadedIsReady(pool, broker, plan);
    ReleaseKeepsSmooth(Loaded(pool, broker, plan));
  }
}
