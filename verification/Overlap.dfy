/**
 When two live coroutines can meet on a task that a worker could run. The
 spawning loop announces a check for this and does not make it; here is what the
 check would have to say.
 */
module Overlap {
  import opened Collections
  import opened Models
  import opened TaskStores
  import opened MemoryQueues
  import opened Schedulers
  import opened Pipelines
  import opened Lifecycle
  import opened Exclusive
  import opened Termination

  /** Coroutine `k` is live, and its task is QUEUED although a worker could run it. */
  ghost predicate OnItsWay(s: System, k: nat) {
    && k < |s.pipes| && Live(s.pipes[k])
    && s.Store().HasStatus(s.pipes[k].task, QUEUED) && Runnable(s.Store(), s.pipes[k].task)
  }

  /** No runnable QUEUED task has a live coroutine: spawning one for each QUEUED task is safe. */
  ghost predicate QueuedAreFree(s: System) {
    forall k :: 0 <= k < |s.pipes| ==> !OnItsWay(s, k)
  }

  // ---- Steps ----

  lemma AdvanceKeepsApart(s: System, i: nat, pc: Pc, store: Store, status: TaskStatus, event: Event)
    requires Shape(s) && NoOverlap(s) && i < |s.pipes| && Live(s.pipes[i])
    requires Changes(s.Store(), store, s.pipes[i].task, status)
    ensures NoOverlap(Advance(s, i, pc, store, event))
  {
    var s' := Advance(s, i, pc, store, event);
    AdvanceKeepsShape(s, i, pc, store, status, event);
    forall m, n | 0 <= m < |s'.pipes| && 0 <= n < |s'.pipes|
      ensures !Meet(s', m, n)
    {
      assert !Meet(s, m, n);
    }
  }

  lemma AssignKeepsApart(s: System, i: nat)
    requires Shape(s) && NoOverlap(s) && i < |s.pipes| && (s.pipes[i].pc.Start? || s.pipes[i].pc.Waiting?)
    ensures NoOverlap(AssignStep(s, i))
  {
    var pc, store, status, event := AssignShape(s, i);
    AdvanceKeepsApart(s, i, pc, store, status, event);
  }

  lemma RespawnKeepsApart(s: System, i: nat)
    requires NoOverlap(s) && i < |s.pipes| && s.pipes[i].pc.Backoff?
    ensures NoOverlap(RespawnStep(s, i))
  {
    var s' := RespawnStep(s, i);
    var last := |s.pipes|;
    forall m, n | 0 <= m < |s'.pipes| && 0 <= n < |s'.pipes|
      ensures !Meet(s', m, n)
    {
      assert !Meet(s, if m == last then i else m, if n == last then i else n);
    }
  }

  lemma SpawnedApart(s: System)
    requires Shape(s) && PendingFresh(s)
    ensures var s' := Release(s);
            forall m, n :: |s.pipes| <= m < n < |s'.pipes| ==> s'.pipes[m].task != s'.pipes[n].task
  {
    ReleaseEffect(s);
    FilterDistinct(Release(s).Store().taskOrder, Release(s).Store().StatusIs(QUEUED));
  }

  lemma QueuedIsListed(s: Store, id: string) returns (n: nat)
    requires s.WellFormed() && s.HasStatus(id, QUEUED)
    ensures n < |s.TasksByStatus(QUEUED)| && s.TasksByStatus(QUEUED)[n] == id
  {
    FilterMember(s.taskOrder, s.StatusIs(QUEUED), id);
    n :| 0 <= n < |s.TasksByStatus(QUEUED)| && s.TasksByStatus(QUEUED)[n] == id;
  }

  lemma SpawnedFor(s: System, id: string) returns (m: nat)
    requires Shape(s) && PendingFresh(s) && Release(s).Store().HasStatus(id, QUEUED)
    ensures |s.pipes| <= m < |Release(s).pipes| && Release(s).pipes[m] == Pipe(id, Start)
  {
    var s' := Release(s);
    ReleaseEffect(s);
    var n := QueuedIsListed(s'.Store(), id);
    m := |s.pipes| + n;
  }

  lemma ReleaseKeepsApart(s: System)
    requires Shape(s) && PendingFresh(s) && NoOverlap(s) && QueuedAreFree(s)
    ensures NoOverlap(Release(s))
  {
    var s' := Release(s);
    ReleaseEffect(s);
    SpawnedPipes(s, "");
    SpawnedApart(s);
    ReleaseShape(s);
    forall m, n | 0 <= m < n < |s'.pipes|
      ensures !Meet(s', m, n) && !Meet(s', n, m)
    {
      if m < |s.pipes| {
        PendingNotTouched(s, m);
        assert s'.pipes[m] == s.pipes[m] && !OnItsWay(s, m);
        if n < |s.pipes| {
          assert s'.pipes[n] == s.pipes[n] && !Meet(s, m, n);
        }
      }
    }
  }

  lemma ReleaseMeets(s: System, k: nat)
    requires Shape(s) && PendingFresh(s) && OnItsWay(s, k)
    ensures !NoOverlap(Release(s))
  {
    var s' := Release(s);
    ReleaseEffect(s);
    ReleaseShape(s);
    PendingNotTouched(s, k);
    var m := SpawnedFor(s, s.pipes[k].task);
    assert s'.pipes[k] == s.pipes[k];
    assert Meet(s', k, m);
  }

  lemma EndKeepsApart(s: System, i: nat)
    requires NoOverlap(s) && QueuedAreFree(s) && i < |s.pipes|
    ensures var ended := s.(pipes := s.pipes[i := Pipe(s.pipes[i].task, Done)]);
            NoOverlap(ended) && QueuedAreFree(ended)
  {
    var ended := s.(pipes := s.pipes[i := Pipe(s.pipes[i].task, Done)]);
    forall m, n | 0 <= m < |s.pipes| && 0 <= n < |s.pipes|
      ensures !Meet(ended, m, n)
    {
      assert !Meet(s, m, n);
    }
    forall k | 0 <= k < |s.pipes|
      ensures !OnItsWay(ended, k)
    {
      assert !OnItsWay(s, k);
    }
  }

  /** A wake-up keeps coroutines apart exactly when no runnable QUEUED task has a live one already. */
  lemma WakeKeepsApartIff(s: System, i: nat)
    requires Shape(s) && PendingFresh(s) && QueuedUntaken(s) && NoOverlap(s) && i < |s.pipes| && s.pipes[i].pc.Judged?
    ensures NoOverlap(WakeStep(s, i)) <==> QueuedAreFree(s)
  {
    var ended := s.(pipes := s.pipes[i := Pipe(s.pipes[i].task, Done)]);
    EndKeepsFresh(s, i);
    assert !OnItsWay(s, i);
    if QueuedAreFree(s) {
      EndKeepsApart(s, i);
      ReleaseKeepsApart(ended);
    } else {
      var k :| 0 <= k < |s.pipes| && OnItsWay(s, k);
      assert OnItsWay(ended, k);
      ReleaseMeets(ended, k);
    }
  }

  /** Coroutines come to share a task only at a wake-up that found one of them on its way already. */
  lemma OnlyWakesMeet(settings: Settings, s: System, a: Action)
    requires Shape(s) && PendingFresh(s) && QueuedUntaken(s) && NoOverlap(s) && Enabled(s, a)
    ensures NoOverlap(Apply(settings, s, a)) || (a.Wake? && !QueuedAreFree(s))
  {
    match a {
      case Wake(i) => WakeKeepsApartIff(s, i);
      case Respawn(i) => RespawnKeepsApart(s, i);
      case _ =>
        var pc, store, status, event := StepShape(settings, s, a);
        AdvanceKeepsApart(s, a.i, pc, store, status, event);
    }
  }

  lemma StepKeepsApart(settings: Settings, s: System, s': System)
    requires Shape(s) && PendingFresh(s) && QueuedUntaken(s) && NoOverlap(s) && Next(settings, s, s')
    requires forall i: nat :: StepBy(settings, s, Wake(i), s') ==> QueuedAreFree(s)
    ensures NoOverlap(s')
  {
    var a :| StepBy(settings, s, a, s');
    assert a.Wake? ==> a == Wake(a.i);
    OnlyWakesMeet(settings, s, a);
  }

  lemma InitiallyApart(s: System, pool: Store, broker: Broker<Message>, plan: seq<TaskSpec>)
    requires Initial(s, pool, broker, plan)
    ensures NoOverlap(s)
  {
    LoadedIsReady(pool, broker, plan);
    ReleaseKeepsApart(Loaded(pool, broker, plan));
  }

  // ---- Runs ----

  /** The step after state j is a wake-up although some runnable QUEUED task has a live coroutine. */
  ghost predicate UnguardedWake(settings: Settings, run: seq<System>, j: nat)
    requires j + 1 < |run|
  {
    !QueuedAreFree(run[j]) && exists i: nat :: StepBy(settings, run[j], Wake(i), run[j + 1])
  }

  ghost predicate WakesAreGuarded(settings: Settings, run: seq<System>) {
    forall j :: 0 <= j < |run| - 1 ==> !UnguardedWake(settings, run, j)
  }

  lemma ApartPassesOn(
    settings: Settings, pool: Store, broker: Broker<Message>, plan: seq<TaskSpec>, run: seq<System>, j: nat)
    requires IsRun(settings, pool, broker, plan, run) && j + 1 < |run|
    requires WakesAreGuarded(settings, run) && NoOverlap(run[j])
    ensures NoOverlap(run[j + 1])
  {
    RunKeepsLifecycle(settings, pool, broker, plan, run, j);
    assert !UnguardedWake(settings, run, j);
    assert Next(settings, run[j], run[j + 1]);
    StepKeepsApart(settings, run[j], run[j + 1]);
  }

  lemma WakeWasGuarded(settings: Settings, s: System, i: nat, s': System)
    requires Shape(s) && PendingFresh(s) && QueuedUntaken(s) && NoOverlap(s) && NoOverlap(s')
    requires StepBy(settings, s, Wake(i), s')
    ensures QueuedAreFree(s)
  {
    WakeKeepsApartIff(s, i);
  }

  lemma ApartIsGuarded(
    settings: Settings, pool: Store, broker: Broker<Message>, plan: seq<TaskSpec>, run: seq<System>, j: nat)
    requires IsRun(settings, pool, broker, plan, run) && j + 1 < |run| && NoOverlap(run[j]) && NoOverlap(run[j + 1])
    ensures !UnguardedWake(settings, run, j)
  {
    RunKeepsLifecycle(settings, pool, broker, plan, run, j);
    if i: nat :| StepBy(settings, run[j], Wake(i), run[j + 1]) {
      WakeWasGuarded(settings, run[j], i, run[j + 1]);
    }
  }

  /**
   The exact condition: two live coroutines never meet on a runnable task if and
   only if every wake-up happens while no runnable QUEUED task has a live
   coroutine. That is the check the comment in the spawning loop announces.
   */
  lemma ExclusiveIffWakesAreGuarded(
    settings: Settings, pool: Store, broker: Broker<Message>, plan: seq<TaskSpec>, run: seq<System>)
    requires IsRun(settings, pool, broker, plan, run)
    ensures IsExclusiveRun(settings, pool, broker, plan, run) <==> WakesAreGuarded(settings, run)
  {
    if WakesAreGuarded(settings, run) {
      InitiallyApart(run[0], pool, broker, plan);
      forall j | 0 <= j < |run| - 1 && NoOverlap(run[j])
        ensures NoOverlap(run[j + 1])
      {
        ApartPassesOn(settings, pool, broker, plan, run, j);
      }
      forall k | 0 <= k < |run|
        ensures NoOverlap(run[k])
      {
        HoldsAlong(run, (s: System) => NoOverlap(s), 0, k);
      }
    }
    if IsExclusiveRun(settings, pool, broker, plan, run) {
      forall j | 0 <= j < |run| - 1
        ensures !UnguardedWake(settings, run, j)
      {
        ApartIsGuarded(settings, pool, broker, plan, run, j);
      }
    }
  }

  // ---- Apart all the way ----

  lemma RunExtends(
    settings: Settings, pool: Store, broker: Broker<Message>, plan: seq<TaskSpec>, run: seq<System>, s': System)
    requires IsRun(settings, pool, broker, plan, run) && Next(settings, run[|run| - 1], s')
    ensures IsRun(settings, pool, broker, plan, run + [s'])
  {
    var longer := run + [s'];
    forall k | 0 <= k < |longer| - 1
      ensures Next(settings, longer[k], longer[k + 1])
    {
      if k < |run| - 1 {
        assert Next(settings, run[k], run[k + 1]);
      }
    }
  }

  /** A step that is no wake-up if there is a coroutine still to be assigned, and any step otherwise. */
  lemma CarefulStep(settings: Settings, s: System) returns (s': System)
    requires Shape(s) && PendingFresh(s) && QueuedUntaken(s) && NoOverlap(s) && !s.Quiescent()
    ensures Next(settings, s, s') && NoOverlap(s')
  {
    if i :| 0 <= i < |s.pipes| && (s.pipes[i].pc.Start? || s.pipes[i].pc.Waiting?) {
      s' := AssignStep(s, i);
      assert StepBy(settings, s, Assign(i), s');
      AssignKeepsApart(s, i);
    } else {
      assert QueuedAreFree(s);
      StuckMeansQuiescent(settings, s);
      s' :| Next(settings, s, s');
      StepKeepsApart(settings, s, s');
    }
  }

  lemma CarefulRunGrows(
    settings: Settings, pool: Store, broker: Broker<Message>, plan: seq<TaskSpec>, run: seq<System>, s': System)
    requires IsExclusiveRun(settings, pool, broker, plan, run) && NoOverlap(s')
    requires Next(settings, run[|run| - 1], s')
    ensures IsExclusiveRun(settings, pool, broker, plan, run + [s'])
  {
    RunExtends(settings, pool, broker, plan, run, s');
    var longer := run + [s'];
    assert forall k :: 0 <= k < |longer| ==> longer[k] == if k < |run| then run[k] else s';
  }

  lemma OneMoreCarefulStep(
    settings: Settings, pool: Store, broker: Broker<Message>, plan: seq<TaskSpec>, run: seq<System>)
    returns (s': System)
    requires IsExclusiveRun(settings, pool, broker, plan, run) && !run[|run| - 1].Quiescent()
    ensures IsExclusiveRun(settings, pool, broker, plan, run + [s'])
    ensures MeasureOf(settings, s').Below(MeasureOf(settings, run[|run| - 1]))
  {
    RunKeepsLifecycle(settings, pool, broker, plan, run, |run| - 1);
    s' := CarefulStep(settings, run[|run| - 1]);
    StepDecreases(settings, run[|run| - 1], s');
    CarefulRunGrows(settings, pool, broker, plan, run, s');
  }

  ghost predicate CanDescend(run: seq<System>, good: seq<System> -> bool, rank: System -> Measure)
    requires run != []
  {
    exists s' :: good(run + [s']) && rank(s').Below(rank(run[|run| - 1]))
  }

  ghost predicate AllCanDescend(good: seq<System> -> bool, rank: System -> Measure) {
    forall run: seq<System> {:trigger CanDescend(run, good, rank)} ::
      good(run) && run != [] && !run[|run| - 1].Quiescent() ==> CanDescend(run, good, rank)
  }

  /** What can be extended downwards as long as it has not come to rest can be extended to rest. */
  lemma {:induction false} Descend(run: seq<System>, good: seq<System> -> bool, rank: System -> Measure)
    returns (whole: seq<System>)
    requires good(run) && run != []
    requires AllCanDescend(good, rank)
    ensures good(whole) && run <= whole && whole[|whole| - 1].Quiescent()
    decreases rank(run[|run| - 1]).untaken, rank(run[|run| - 1]).retries,
              rank(run[|run| - 1]).active, rank(run[|run| - 1]).queued
  {
    if run[|run| - 1].Quiescent() {
      whole := run;
    } else {
      assert CanDescend(run, good, rank);
      var s' :| good(run + [s']) && rank(s').Below(rank(run[|run| - 1]));
      whole := Descend(run + [s'], good, rank);
    }
  }

  ghost function ApartRuns(
    settings: Settings, pool: Store, broker: Broker<Message>, plan: seq<TaskSpec>): seq<System> -> bool
  {
    (r: seq<System>) => IsExclusiveRun(settings, pool, broker, plan, r)
  }

  ghost function RankOf(settings: Settings): System -> Measure {
    (s: System) => MeasureOf(settings, s)
  }

  lemma ApartCanDescend(
    settings: Settings, pool: Store, broker: Broker<Message>, plan: seq<TaskSpec>, run: seq<System>)
    requires IsExclusiveRun(settings, pool, broker, plan, run) && !run[|run| - 1].Quiescent()
    ensures CanDescend(run, ApartRuns(settings, pool, broker, plan), RankOf(settings))
  {
    var s' := OneMoreCarefulStep(settings, pool, broker, plan, run);
    assert ApartRuns(settings, pool, broker, plan)(run + [s']);
  }

  lemma ApartRunsDescend(settings: Settings, pool: Store, broker: Broker<Message>, plan: seq<TaskSpec>)
    ensures AllCanDescend(ApartRuns(settings, pool, broker, plan), RankOf(settings))
  {
    forall run: seq<System> | ApartRuns(settings, pool, broker, plan)(run) && run != [] && !run[|run| - 1].Quiescent()
      ensures CanDescend(run, ApartRuns(settings, pool, broker, plan), RankOf(settings))
    {
      ApartCanDescend(settings, pool, broker, plan, run);
    }
  }

  /**
   Staying apart is always possible: every run without overlap can be continued
   to rest without overlap, by letting new coroutines get their worker before
   any wake-up.
   */
  lemma CanEndApart(
    settings: Settings, pool: Store, broker: Broker<Message>, plan: seq<TaskSpec>, run: seq<System>)
    returns (whole: seq<System>)
    requires IsExclusiveRun(settings, pool, broker, plan, run)
    ensures IsExclusiveRun(settings, pool, broker, plan, whole) && run <= whole && whole[|whole| - 1].Quiescent()
  {
    var good := ApartRuns(settings, pool, broker, plan);
    ApartRunsDescend(settings, pool, broker, plan);
    whole := Descend(run, good, RankOf(settings));
    assert good(whole);
  }
}
