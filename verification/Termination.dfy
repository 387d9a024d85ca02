/** Every run of a workload is finite, coroutines overlapping on one task included. */
module Termination {
  import opened Collections
  import opened Models
  import opened TaskStores
  import opened MemoryQueues
  import opened LoadBalancers
  import opened Schedulers
  import opened RetryAgents
  import opened Pipelines
  import opened Lifecycle

  /** How far a coroutine is from its end, not counting retries and tasks it releases. */
  function Weight(pc: Pc): nat {
    match pc
    case Start => 6
    case Waiting => 5
    case Assigned(_) => 4
    case Running(_) => 3
    case Failed(_) => 1
    case Backoff(_) => 7
    case Completed(_) => 2
    case Judged => 1
    case Done => 0
  }

  predicate IsQueued(tasks: map<string, Task>, id: string) {
    id in tasks && tasks[id].status == QUEUED
  }

  /** 1 for a task that has not been taken up by a worker yet. */
  function Untaken(s: System): string -> nat {
    id => if Pending(s, id) || IsQueued(s.Tasks(), id) then 1 else 0
  }

  function RetriesLeft(settings: Settings, s: System): string -> nat {
    id => if id in s.Tasks() then Max(0, RetryBudget(settings) - s.Tasks()[id].retryCount) else 0
  }

  function ActiveWeight(tasks: map<string, Task>): Pipe -> nat {
    (p: Pipe) => if IsQueued(tasks, p.task) then 0 else Weight(p.pc)
  }

  function QueuedWeight(tasks: map<string, Task>): Pipe -> nat {
    (p: Pipe) => if IsQueued(tasks, p.task) then Weight(p.pc) else 0
  }

  /** Compared lexicographically. */
  datatype Measure = Measure(untaken: nat, retries: nat, active: nat, queued: nat) {
    predicate Below(m: Measure) {
      || untaken < m.untaken
      || (untaken == m.untaken && retries < m.retries)
      || (untaken == m.untaken && retries == m.retries && active < m.active)
      || (untaken == m.untaken && retries == m.retries && active == m.active && queued < m.queued)
    }
  }

  function MeasureOf(settings: Settings, s: System): Measure {
    Measure(
      Sum(s.Store().taskOrder, Untaken(s)),
      Sum(s.Store().taskOrder, RetriesLeft(settings, s)),
      Sum(s.pipes, ActiveWeight(s.Tasks())),
      Sum(s.pipes, QueuedWeight(s.Tasks())))
  }

  lemma {:induction false} SumMonotone(order: seq<string>, f: string -> nat, g: string -> nat)
    requires forall x :: x in order ==> f(x) <= g(x)
    ensures Sum(order, f) <= Sum(order, g)
    ensures (exists x :: x in order && f(x) < g(x)) ==> Sum(order, f) < Sum(order, g)
  {
    if order == [] {
    } else {
      assert forall x :: x in order <==> x == order[0] || x in order[1..];
      SumMonotone(order[1..], f, g);
    }
  }

  /** A row of the table for a task that is no longer QUEUED moves its coroutine closer to the end. */
  lemma AdvanceWeight(s: System, i: nat, pc: Pc, store: Store, status: TaskStatus, event: Event)
    requires i < |s.pipes| && Changes(s.Store(), store, s.pipes[i].task, status)
    requires s.Tasks()[s.pipes[i].task].status != QUEUED && status != QUEUED
    requires Weight(pc) < Weight(s.pipes[i].pc)
    ensures Sum(Advance(s, i, pc, store, event).pipes, ActiveWeight(store.tasks))
            < Sum(s.pipes, ActiveWeight(s.Tasks()))
  {
    var before, after := ActiveWeight(s.Tasks()), ActiveWeight(store.tasks);
    SumSame(s.pipes, before, after);
    SumUpdate(s.pipes, i, Pipe(s.pipes[i].task, pc), after);
  }

  /** Nothing is counted for tasks and retries unless the task leaves QUEUED. */
  lemma AdvanceUntaken(s: System, i: nat, pc: Pc, store: Store, status: TaskStatus, event: Event)
    requires Shape(s) && PendingFresh(s) && i < |s.pipes| && Changes(s.Store(), store, s.pipes[i].task, status)
    requires status == QUEUED ==> s.Tasks()[s.pipes[i].task].status == QUEUED
    ensures var s' := Advance(s, i, pc, store, event);
            && Sum(store.taskOrder, Untaken(s')) <= Sum(s.Store().taskOrder, Untaken(s))
            && (s.Tasks()[s.pipes[i].task].status == QUEUED && status != QUEUED ==>
                  Sum(store.taskOrder, Untaken(s')) < Sum(s.Store().taskOrder, Untaken(s)))
  {
    var s' := Advance(s, i, pc, store, event);
    PendingNotTouched(s, i);
    SumMonotone(store.taskOrder, Untaken(s'), Untaken(s));
    if s.Tasks()[s.pipes[i].task].status == QUEUED && status != QUEUED {
      assert Untaken(s')(s.pipes[i].task) < Untaken(s)(s.pipes[i].task);
    }
  }

  /** All retry counts are as they were. */
  ghost predicate SameRetries(s: Store, r: Store) {
    && r.taskOrder == s.taskOrder && r.tasks.Keys == s.tasks.Keys
    && forall id :: id in s.tasks ==> r.tasks[id].retryCount == s.tasks[id].retryCount
  }

  lemma RetriesKept(settings: Settings, s: System, s': System)
    requires SameRetries(s.Store(), s'.Store())
    ensures MeasureOf(settings, s').retries == MeasureOf(settings, s).retries
  {
    SumSame(s.Store().taskOrder, RetriesLeft(settings, s), RetriesLeft(settings, s'));
  }

  /** A step that leaves the desk alone changes only the weights of coroutines. */
  lemma SameDesk(settings: Settings, s: System, s': System)
    requires s'.desk == s.desk
    ensures MeasureOf(settings, s').untaken == MeasureOf(settings, s).untaken
    ensures MeasureOf(settings, s').retries == MeasureOf(settings, s).retries
  {
    SumSame(s.Store().taskOrder, Untaken(s), Untaken(s'));
    SumSame(s.Store().taskOrder, RetriesLeft(settings, s), RetriesLeft(settings, s'));
  }

  /** A worker takes the task: either it leaves QUEUED, or the coroutine gets one stage further. */
  lemma TakeDecreases(settings: Settings, s: System, i: nat, pc: Pc, store: Store, status: TaskStatus, event: Event)
    requires Shape(s) && PendingFresh(s) && i < |s.pipes| && Changes(s.Store(), store, s.pipes[i].task, status)
    requires SameRetries(s.Store(), store)
    requires status != QUEUED && Weight(pc) < Weight(s.pipes[i].pc)
    ensures MeasureOf(settings, Advance(s, i, pc, store, event)).Below(MeasureOf(settings, s))
  {
    RetriesKept(settings, s, Advance(s, i, pc, store, event));
    AdvanceUntaken(s, i, pc, store, status, event);
    if s.Tasks()[s.pipes[i].task].status != QUEUED {
      AdvanceWeight(s, i, pc, store, status, event);
    }
  }

  /** Waiting for a worker changes nothing but the coroutine's own position. */
  lemma WaitDecreases(settings: Settings, s: System, i: nat, pc: Pc, event: Event)
    requires i < |s.pipes| && Weight(pc) < Weight(s.pipes[i].pc)
    ensures MeasureOf(settings, Advance(s, i, pc, s.Store(), event)).Below(MeasureOf(settings, s))
  {
    var s' := Advance(s, i, pc, s.Store(), event);
    SumUpdate(s.pipes, i, s'.pipes[i], ActiveWeight(s.Tasks()));
    SumUpdate(s.pipes, i, s'.pipes[i], QueuedWeight(s.Tasks()));
    SameDesk(settings, s, s');
  }

  lemma AssignKeepsRetries(s: System, i: nat)
    requires Shape(s) && i < |s.pipes|
    ensures SameRetries(s.Store(), AssignStep(s, i).Store())
  {
  }

  /** What an assignment does to the measure's ingredients. */
  lemma AssignRow(s: System, i: nat) returns (pc: Pc, store: Store, status: TaskStatus, event: Event)
    requires Shape(s) && i < |s.pipes| && (s.pipes[i].pc.Start? || s.pipes[i].pc.Waiting?)
    ensures AssignStep(s, i) == Advance(s, i, pc, store, event)
    ensures Changes(s.Store(), store, s.pipes[i].task, status) && SameRetries(s.Store(), store)
    ensures Weight(pc) < Weight(s.pipes[i].pc)
    ensures if pc.Assigned? then status == ASSIGNED else store == s.Store()
  {
    pc, store, status, event := AssignShape(s, i);
    AssignKeepsRetries(s, i);
  }

  lemma AssignDecreases(settings: Settings, s: System, i: nat)
    requires Shape(s) && PendingFresh(s) && i < |s.pipes| && (s.pipes[i].pc.Start? || s.pipes[i].pc.Waiting?)
    ensures MeasureOf(settings, AssignStep(s, i)).Below(MeasureOf(settings, s))
  {
    var pc, store, status, event := AssignRow(s, i);
    if pc.Assigned? {
      TakeDecreases(settings, s, i, pc, store, status, event);
    } else {
      WaitDecreases(settings, s, i, pc, event);
    }
  }

  /** Past assignment a task is not QUEUED, and no row makes it so. */
  lemma PastAssignment(s: System, i: nat, pc: Pc, status: TaskStatus, event: Event)
    requires Shape(s) && QueuedUntaken(s) && i < |s.pipes| && Allowed(s, i, pc, status, event)
    requires !s.pipes[i].pc.Start? && !s.pipes[i].pc.Waiting?
    ensures status != QUEUED && (pc.Backoff? || Weight(pc) < Weight(s.pipes[i].pc))
  {
  }

  /** Begin, finish and judge: one stage forward on a task that is not QUEUED. */
  lemma StageDecreases(settings: Settings, s: System, i: nat, pc: Pc, store: Store, status: TaskStatus, event: Event)
    requires Shape(s) && PendingFresh(s) && QueuedUntaken(s) && i < |s.pipes|
    requires Changes(s.Store(), store, s.pipes[i].task, status) && Allowed(s, i, pc, status, event)
    requires !s.pipes[i].pc.Start? && !s.pipes[i].pc.Waiting? && !pc.Backoff?
    requires SameRetries(s.Store(), store)
    ensures MeasureOf(settings, Advance(s, i, pc, store, event)).Below(MeasureOf(settings, s))
  {
    PastAssignment(s, i, pc, status, event);
    TakeDecreases(settings, s, i, pc, store, status, event);
  }

  /** The retry agent either uses up one of the granted retries or leaves the count alone. */
  lemma RecoverRetries(settings: Settings, s: Store, id: string, result: TaskResult, jitter: real)
    requires id in s.tasks
    ensures var r := AfterFailure(s, settings, id, s.tasks[id].retryCount, result);
            if Decide(settings, s.tasks[id].retryCount, result, jitter).DeadLetter? then SameRetries(s, r)
            else
              && r.taskOrder == s.taskOrder && r.tasks.Keys == s.tasks.Keys
              && r.tasks[id].retryCount == s.tasks[id].retryCount + 1 <= RetryBudget(settings)
              && forall x :: x in s.tasks && x != id ==> r.tasks[x].retryCount == s.tasks[x].retryCount
  {
  }

  /** One task has a retry less, the others have as many as before. */
  lemma RetryUsesUp(settings: Settings, s: System, s': System, id: string)
    requires s.Store().WellFormed() && s'.Store().taskOrder == s.Store().taskOrder && s'.Tasks().Keys == s.Tasks().Keys
    requires id in s.Tasks() && s'.Tasks()[id].retryCount == s.Tasks()[id].retryCount + 1 <= RetryBudget(settings)
    requires forall x :: x in s.Tasks() && x != id ==> s'.Tasks()[x].retryCount == s.Tasks()[x].retryCount
    ensures MeasureOf(settings, s').retries < MeasureOf(settings, s).retries
  {
    assert RetriesLeft(settings, s')(id) < RetriesLeft(settings, s)(id);
    SumMonotone(s.Store().taskOrder, RetriesLeft(settings, s'), RetriesLeft(settings, s));
  }

  lemma RetryDecreases(settings: Settings, s: System, i: nat, pc: Pc, store: Store, status: TaskStatus, event: Event)
    requires Shape(s) && PendingFresh(s) && i < |s.pipes| && Changes(s.Store(), store, s.pipes[i].task, status)
    requires status != QUEUED
    requires store.tasks[s.pipes[i].task].retryCount
             == s.Tasks()[s.pipes[i].task].retryCount + 1 <= RetryBudget(settings)
    ensures MeasureOf(settings, Advance(s, i, pc, store, event)).Below(MeasureOf(settings, s))
  {
    AdvanceUntaken(s, i, pc, store, status, event);
    RetryUsesUp(settings, s, Advance(s, i, pc, store, event), s.pipes[i].task);
  }

  lemma RecoverDecreases(settings: Settings, s: System, i: nat, jitter: real)
    requires Shape(s) && PendingFresh(s) && QueuedUntaken(s) && i < |s.pipes| && s.pipes[i].pc.Failed?
    ensures MeasureOf(settings, RecoverStep(settings, s, i, jitter)).Below(MeasureOf(settings, s))
  {
    var pc, store, status, event := RecoverShape(settings, s, i, jitter);
    RecoverRetries(settings, s.Store(), s.pipes[i].task, s.pipes[i].pc.result, jitter);
    PastAssignment(s, i, pc, status, event);
    if pc.Backoff? {
      RetryDecreases(settings, s, i, pc, store, status, event);
    } else {
      StageDecreases(settings, s, i, pc, store, status, event);
    }
  }

  lemma RespawnWeight(pipes: seq<Pipe>, i: nat, tasks: map<string, Task>)
    requires i < |pipes| && pipes[i].pc.Backoff? && !IsQueued(tasks, pipes[i].task)
    ensures Sum(pipes[i := Pipe(pipes[i].task, Done)] + [Pipe(pipes[i].task, Start)], ActiveWeight(tasks))
            < Sum(pipes, ActiveWeight(tasks))
  {
    SumSplitLess(pipes, i, Pipe(pipes[i].task, Done), Pipe(pipes[i].task, Start), ActiveWeight(tasks));
  }

  lemma RespawnDecreases(settings: Settings, s: System, i: nat)
    requires Shape(s) && QueuedUntaken(s) && i < |s.pipes| && s.pipes[i].pc.Backoff?
    ensures MeasureOf(settings, RespawnStep(s, i)).Below(MeasureOf(settings, s))
  {
    RespawnWeight(s.pipes, i, s.Tasks());
    SameDesk(settings, s, RespawnStep(s, i));
  }

  /** Scheduling only moves tasks from pending to QUEUED. */
  lemma ReleaseUntaken(settings: Settings, s: System)
    requires Shape(s) && PendingFresh(s)
    ensures MeasureOf(settings, Release(s)).untaken == MeasureOf(settings, s).untaken
    ensures MeasureOf(settings, Release(s)).retries == MeasureOf(settings, s).retries
  {
    var s' := Release(s);
    ReleaseEffect(s);
    forall id | id in s.Store().taskOrder
      ensures Untaken(s)(id) == Untaken(s')(id)
    {
      assert Pending(s', id) <==> Pending(s, id) && !Goes(s, id);
    }
    SumSame(s.Store().taskOrder, Untaken(s), Untaken(s'));
    RetriesKept(settings, s, s');
  }

  lemma EndWeight(pipes: seq<Pipe>, i: nat, tasks: map<string, Task>)
    requires i < |pipes| && pipes[i].pc.Judged? && !IsQueued(tasks, pipes[i].task)
    ensures Sum(pipes[i := Pipe(pipes[i].task, Done)], ActiveWeight(tasks)) < Sum(pipes, ActiveWeight(tasks))
  {
    SumUpdate(pipes, i, Pipe(pipes[i].task, Done), ActiveWeight(tasks));
  }

  /** Scheduling changes no task that has a coroutine. */
  lemma OldWeightKept(s: System)
    requires Shape(s) && PendingFresh(s)
    ensures Sum(s.pipes, ActiveWeight(Release(s).Tasks())) == Sum(s.pipes, ActiveWeight(s.Tasks()))
  {
    ReleaseEffect(s);
    forall p | p in s.pipes
      ensures ActiveWeight(s.Tasks())(p) == ActiveWeight(Release(s).Tasks())(p)
    {
      var k :| 0 <= k < |s.pipes| && s.pipes[k] == p;
      PendingNotTouched(s, k);
    }
    SumSame(s.pipes, ActiveWeight(s.Tasks()), ActiveWeight(Release(s).Tasks()));
  }

  /** Coroutines of QUEUED tasks weigh nothing. */
  lemma QueuedWeighNothing(pipes: seq<Pipe>, tasks: map<string, Task>)
    requires forall k :: 0 <= k < |pipes| ==> IsQueued(tasks, pipes[k].task)
    ensures Sum(pipes, ActiveWeight(tasks)) == 0
  {
    SumZero(pipes, ActiveWeight(tasks));
  }

  /** Coroutines spawned for QUEUED tasks weigh nothing. */
  lemma SpawnedWeighNothing(s: Store)
    ensures Sum(Starts(s.TasksByStatus(QUEUED)), ActiveWeight(s.tasks)) == 0
  {
    var queued := s.TasksByStatus(QUEUED);
    forall k | 0 <= k < |queued|
      ensures IsQueued(s.tasks, queued[k])
    {
      FilterMember(s.taskOrder, s.StatusIs(QUEUED), queued[k]);
    }
    QueuedWeighNothing(Starts(queued), s.tasks);
  }

  /** New coroutines weigh nothing; old ones keep their weight. */
  lemma ReleaseWeight(s: System)
    requires Shape(s) && PendingFresh(s)
    ensures Sum(Release(s).pipes, ActiveWeight(Release(s).Tasks())) == Sum(s.pipes, ActiveWeight(s.Tasks()))
  {
    var r := Release(s).Store();
    OldWeightKept(s);
    SpawnedWeighNothing(r);
    SumAppend(s.pipes, Starts(r.TasksByStatus(QUEUED)), ActiveWeight(r.tasks));
  }

  lemma WakeDecreases(settings: Settings, s: System, i: nat)
    requires Shape(s) && PendingFresh(s) && QueuedUntaken(s) && i < |s.pipes| && s.pipes[i].pc.Judged?
    ensures MeasureOf(settings, WakeStep(s, i)).Below(MeasureOf(settings, s))
  {
    var ended := s.(pipes := s.pipes[i := Pipe(s.pipes[i].task, Done)]);
    EndWeight(s.pipes, i, s.Tasks());
    SameDesk(settings, s, ended);
    EndKeepsFresh(s, i);
    ReleaseUntaken(settings, ended);
    ReleaseWeight(ended);
  }

  lemma BeginDecreases(settings: Settings, s: System, i: nat)
    requires Shape(s) && PendingFresh(s) && QueuedUntaken(s) && i < |s.pipes| && s.pipes[i].pc.Assigned?
    ensures MeasureOf(settings, BeginStep(s, i)).Below(MeasureOf(settings, s))
  {
    var pc, store, status, event := BeginShape(s, i);
    StageDecreases(settings, s, i, pc, store, status, event);
  }

  lemma FinishDecreases(settings: Settings, s: System, i: nat, result: TaskResult)
    requires Shape(s) && PendingFresh(s) && QueuedUntaken(s) && i < |s.pipes| && s.pipes[i].pc.Running?
    ensures MeasureOf(settings, FinishStep(s, i, result)).Below(MeasureOf(settings, s))
  {
    var pc, store, status, event := FinishShape(s, i, result);
    StageDecreases(settings, s, i, pc, store, status, event);
  }

  lemma JudgeDecreases(settings: Settings, s: System, i: nat, variance: int)
    requires Shape(s) && PendingFresh(s) && QueuedUntaken(s) && i < |s.pipes| && s.pipes[i].pc.Completed?
    ensures MeasureOf(settings, JudgeStep(s, i, variance)).Below(MeasureOf(settings, s))
  {
    var pc, store, status, event := JudgeShape(s, i, variance);
    StageDecreases(settings, s, i, pc, store, status, event);
  }

  /**
   Every step, overlapping coroutines included, strictly decreases: tasks no
   worker has taken yet, then retries left, then stages left of coroutines on
   taken tasks, then stages left of coroutines on queued tasks.
   */
  lemma StepDecreases(settings: Settings, s: System, s': System)
    requires Shape(s) && PendingFresh(s) && QueuedUntaken(s) && Next(settings, s, s')
    ensures MeasureOf(settings, s').Below(MeasureOf(settings, s))
  {
    var a :| StepBy(settings, s, a, s');
    match a {
      case Assign(i) => AssignDecreases(settings, s, i);
      case Begin(i) => BeginDecreases(settings, s, i);
      case Finish(i, result) => FinishDecreases(settings, s, i, result);
      case Recover(i, jitter) => RecoverDecreases(settings, s, i, jitter);
      case Respawn(i) => RespawnDecreases(settings, s, i);
      case Judge(i, variance) => JudgeDecreases(settings, s, i, variance);
      case Wake(i) => WakeDecreases(settings, s, i);
    }
  }

  ghost predicate StepsOn(settings: Settings, run: nat -> System, n: nat) {
    Next(settings, run(n), run(n + 1))
  }

  lemma StepOnDecreases(settings: Settings, run: nat -> System, k: nat)
    requires LifecycleInv(run(k)) && StepsOn(settings, run, k)
    ensures LifecycleInv(run(k + 1)) && MeasureOf(settings, run(k + 1)).Below(MeasureOf(settings, run(k)))
  {
    StepDecreases(settings, run(k), run(k + 1));
    NextKeepsLifecycle(settings, run(k), run(k + 1));
  }

  /** Following an infinite sequence of states from any point one finds a place where it does not step. */
  lemma {:induction false} StopsAfter(settings: Settings, run: nat -> System, k: nat, m: Measure) returns (n: nat)
    requires LifecycleInv(run(k)) && m == MeasureOf(settings, run(k))
    ensures n >= k && !StepsOn(settings, run, n)
    decreases m.untaken, m.retries, m.active, m.queued
  {
    if StepsOn(settings, run, k) {
      StepOnDecreases(settings, run, k);
      n := StopsAfter(settings, run, k + 1, MeasureOf(settings, run(k + 1)));
    } else {
      n := k;
    }
  }

  /** No workload runs for ever: an infinite sequence that starts properly has a point where no step was taken. */
  lemma EveryRunEnds(
    settings: Settings, pool: Store, broker: Broker<Message>, plan: seq<TaskSpec>, run: nat -> System)
    returns (n: nat)
    requires Initial(run(0), pool, broker, plan)
    ensures !StepsOn(settings, run, n)
  {
    InitialLifecycle(run(0), pool, broker, plan);
    n := StopsAfter(settings, run, 0, MeasureOf(settings, run(0)));
  }

  /** A state can step exactly when some coroutine is live, so a run that cannot go on is quiescent. */
  lemma StuckMeansQuiescent(settings: Settings, s: System)
    requires Shape(s)
    ensures (exists s' :: Next(settings, s, s')) <==> !s.Quiescent()
  {
    if !s.Quiescent() {
      var i :| 0 <= i < |s.pipes| && Live(s.pipes[i]);
      var p := s.pipes[i];
      var a := match p.pc
        case Start => Assign(i)
        case Waiting => Assign(i)
        case Assigned(_) => Begin(i)
        case Running(w) => Finish(i, TaskResult(p.task, w, true, 0, None, None))
        case Failed(_) => Recover(i, 0.0)
        case Backoff(_) => Respawn(i)
        case Completed(_) => Judge(i, 3)
        case Judged => Wake(i);
      assert StepBy(settings, s, a, Apply(settings, s, a));
      assert Next(settings, s, Apply(settings, s, a));
    }
    if s' :| Next(settings, s, s') {
      var a :| StepBy(settings, s, a, s');
      assert Live(s.pipes[a.i]);
    }
  }
}
