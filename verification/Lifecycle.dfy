/**
 The shape of every step, and the invariants about task states that hold in
 every reachable state, coroutines overlapping on one task included.
 */
module Lifecycle {
  import opened Collections
  import opened Models
  import opened TaskStores
  import opened LoadBalancers
  import opened Schedulers
  import opened Pipelines
  import opened MemoryQueues

  datatype Stage =
    AtStart | AtWaiting | AtAssigned | AtRunning | AtFailed | AtBackoff | AtCompleted | AtJudged | AtDone

  function StageOf(pc: Pc): Stage {
    match pc
    case Start => AtStart
    case Waiting => AtWaiting
    case Assigned(_) => AtAssigned
    case Running(_) => AtRunning
    case Failed(_) => AtFailed
    case Backoff(_) => AtBackoff
    case Completed(_) => AtCompleted
    case Judged => AtJudged
    case Done => AtDone
  }

  predicate IsAt(p: Pipe, id: string, stage: Stage) {
    p.task == id && StageOf(p.pc) == stage
  }

  /** Some coroutine of task `id` is suspended at `stage`. */
  ghost predicate HasPipe(pipes: seq<Pipe>, id: string, stage: Stage) {
    exists k :: 0 <= k < |pipes| && IsAt(pipes[k], id, stage)
  }

  ghost predicate Touched(pipes: seq<Pipe>, id: string) {
    exists k :: 0 <= k < |pipes| && pipes[k].task == id
  }

  predicate Pending(s: System, id: string) { id in Ids(s.desk.pending) }

  /** Some worker of the type this task needs is available. */
  ghost predicate Staffed(s: Store, task: TaskSpec) {
    exists w :: w in s.workerOrder && s.Available(w, WorkerTypeFor(task.partition))
  }

  lemma StaffedMeansChoice(s: Store, task: TaskSpec)
    ensures Staffed(s, task) <==> Choice(s, task).Some?
  {
  }

  // ---- The shape of a step ----

  /** One task's record changes, ending in `status`; no worker appears, leaves or changes type. */
  ghost predicate Changes(s: Store, r: Store, id: string, status: TaskStatus) {
    && r.taskOrder == s.taskOrder && r.workerOrder == s.workerOrder
    && r.tasks.Keys == s.tasks.Keys && r.workers.Keys == s.workers.Keys
    && id in s.tasks && r.tasks[id].spec == s.tasks[id].spec && r.tasks[id].status == status
    && (forall x :: x in s.tasks && x != id ==> r.tasks[x] == s.tasks[x])
    && (forall w :: w in s.workers ==>
          r.workers[w].workerType == s.workers[w].workerType
          && (r.workers[w].status == Offline <==> s.workers[w].status == Offline))
  }

  /** The transition table: program counter and status before, and after with the event reported. */
  ghost predicate Allowed(s: System, i: nat, pc: Pc, status: TaskStatus, event: Event)
    requires i < |s.pipes| && s.pipes[i].task in s.Tasks()
  {
    var id := s.pipes[i].task;
    var before := s.Tasks()[id].status;
    var spec := s.Tasks()[id].spec;
    match s.pipes[i].pc
    case Start =>
      || (Staffed(s.Store(), spec) && pc.Assigned? && status == ASSIGNED && event.TaskAssigned?
          && event.task == id && event.worker == pc.worker)
      || (!Staffed(s.Store(), spec) && pc == Waiting && status == before && event == WorkerUnavailable(id))
    case Waiting =>
      || (Staffed(s.Store(), spec) && pc.Assigned? && status == ASSIGNED && event.TaskAssigned?
          && event.task == id && event.worker == pc.worker)
      || (!Staffed(s.Store(), spec) && pc == Done && status == before && event == TaskDeferred(id))
    case Assigned(w) => pc == Running(w) && status == RUNNING && event == TaskStarted(id, w)
    case Running(w) =>
      || (pc.Failed? && status == FAILED && event.TaskFailed? && event.task == id)
      || (pc.Completed? && status == COMPLETED && event.TaskCompleted? && event.task == id)
    case Failed(_) =>
      || (pc.Backoff? && status == CREATED && event == RetryScheduled(id))
      || (pc == Done && status == FAILED && event == DeadLettered(id))
    case Completed(_) =>
      && pc == Judged
      && ((status == VALIDATED && event == TaskValidated(id)) || (status == before && event == ValidationFailed(id)))
    case _ => false
  }

  /** What every step needs to find: consistent dictionaries, known ids, nobody offline. */
  ghost predicate Shape(s: System) {
    && s.desk.Usable() && s.Store().WellFormed()
    && (forall w :: w in s.Store().workers ==> s.Store().workers[w].status != Offline)
    && (forall id :: id in s.Tasks() ==> s.Tasks()[id].spec.taskId == id)
    && (forall k :: 0 <= k < |s.pipes| ==> s.pipes[k].task in s.Tasks())
  }

  ghost predicate DependsBackwards(s: Store, i: nat)
    requires s.WellFormed() && i < |s.taskOrder|
  {
    var deps := s.tasks[s.taskOrder[i]].spec.dependencies;
    forall k :: 0 <= k < |deps| ==> deps[k] in s.taskOrder[..i]
  }

  /** Dependencies are stored before the tasks that need them. */
  ghost predicate Sorted(s: Store)
    requires s.WellFormed()
  {
    forall i :: 0 <= i < |s.taskOrder| ==> DependsBackwards(s, i)
  }

  predicate IsAdvance(a: Action) { !a.Wake? && !a.Respawn? }

  lemma AssignShape(s: System, i: nat) returns (pc: Pc, store: Store, status: TaskStatus, event: Event)
    requires Shape(s) && i < |s.pipes| && (s.pipes[i].pc.Start? || s.pipes[i].pc.Waiting?)
    ensures AssignStep(s, i) == Advance(s, i, pc, store, event)
    ensures Changes(s.Store(), store, s.pipes[i].task, status) && Allowed(s, i, pc, status, event)
    ensures match Choice(s.Store(), s.Tasks()[s.pipes[i].task].spec)
            case Some(w) =>
              && pc == Assigned(w) && w in s.Store().workers
              && event == TaskAssigned(s.pipes[i].task, w, s.Store().workers[w].loadPct + LOAD_STEP > FULL_LOAD)
              && store.workers == s.Store().workers[w := Engage(s.Store().workers[w], s.pipes[i].task)]
              && store == s.Store().(workers := store.workers, tasks := store.tasks)
            case None => !pc.Assigned? && store == s.Store()
  {
    var id := s.pipes[i].task;
    var spec := s.Tasks()[id].spec;
    StaffedMeansChoice(s.Store(), spec);
    match Choice(s.Store(), spec) {
      case Some(w) =>
        pc, store, status := Assigned(w), AfterAssign(s.Store(), spec), ASSIGNED;
        event := TaskAssigned(id, w, s.Store().workers[w].loadPct + LOAD_STEP > FULL_LOAD);
      case None =>
        store, status := s.Store(), s.Tasks()[id].status;
        pc := if s.pipes[i].pc.Start? then Waiting else Done;
        event := if s.pipes[i].pc.Start? then WorkerUnavailable(id) else TaskDeferred(id);
    }
  }

  lemma BeginShape(s: System, i: nat) returns (pc: Pc, store: Store, status: TaskStatus, event: Event)
    requires Shape(s) && i < |s.pipes| && s.pipes[i].pc.Assigned?
    ensures BeginStep(s, i) == Advance(s, i, pc, store, event)
    ensures Changes(s.Store(), store, s.pipes[i].task, status) && Allowed(s, i, pc, status, event)
  {
    var s' := BeginStep(s, i);
    pc, store, status, event := s'.pipes[i].pc, s'.Store(), RUNNING, s'.log[|s.log|];
  }

  lemma ReleaseChanges(s: Store, id: string, w: string, success: bool)
    requires id in s.tasks && (w in s.workers ==> s.workers[w].status != Offline)
    ensures Changes(s, AfterRelease(s, w, success), id, s.tasks[id].status)
    ensures AfterRelease(s, w, success).tasks == s.tasks
  {
  }

  lemma FinishShape(
    s: System, i: nat, result: TaskResult)
    returns (pc: Pc, store: Store, status: TaskStatus, event: Event)
    requires Shape(s) && i < |s.pipes| && s.pipes[i].pc.Running?
    ensures FinishStep(s, i, result) == Advance(s, i, pc, store, event)
    ensures Changes(s.Store(), store, s.pipes[i].task, status) && Allowed(s, i, pc, status, event)
    ensures store == FinishStep(s, i, result).Store()
    ensures var id, w := s.pipes[i].task, s.pipes[i].pc.worker;
            if result.failed then pc == Failed(result) && event == TaskFailed(id, w, Floors(s.Store(), w))
            else pc == Completed(result) && event == TaskCompleted(id, w, Floors(s.Store(), w))
  {
    var id, w := s.pipes[i].task, s.pipes[i].pc.worker;
    store := FinishStep(s, i, result).Store();
    ReleaseChanges(s.Store(), id, w, !result.failed);
    if result.failed {
      pc, status, event := Failed(result), FAILED, TaskFailed(id, w, Floors(s.Store(), w));
    } else {
      pc, status, event := Completed(result), COMPLETED, TaskCompleted(id, w, Floors(s.Store(), w));
    }
  }

  lemma RecoverShape(settings: Settings, s: System, i: nat, jitter: real)
    returns (pc: Pc, store: Store, status: TaskStatus, event: Event)
    requires Shape(s) && i < |s.pipes| && s.pipes[i].pc.Failed?
    ensures RecoverStep(settings, s, i, jitter) == Advance(s, i, pc, store, event)
    ensures Changes(s.Store(), store, s.pipes[i].task, status) && Allowed(s, i, pc, status, event)
  {
    var s' := RecoverStep(settings, s, i, jitter);
    pc, store, event := s'.pipes[i].pc, s'.Store(), s'.log[|s.log|];
    status := if pc.Done? then FAILED else CREATED;
  }

  lemma JudgeShape(s: System, i: nat, variance: int) returns (pc: Pc, store: Store, status: TaskStatus, event: Event)
    requires Shape(s) && i < |s.pipes| && s.pipes[i].pc.Completed?
    ensures JudgeStep(s, i, variance) == Advance(s, i, pc, store, event)
    ensures Changes(s.Store(), store, s.pipes[i].task, status) && Allowed(s, i, pc, status, event)
  {
    var s' := JudgeStep(s, i, variance);
    pc, store, event := s'.pipes[i].pc, s'.Store(), s'.log[|s.log|];
    status := if event.TaskValidated? then VALIDATED else s.Tasks()[s.pipes[i].task].status;
  }

  /** Every action but waking and respawning is one row of the table. */
  lemma StepShape(settings: Settings, s: System, a: Action)
    returns (pc: Pc, store: Store, status: TaskStatus, event: Event)
    requires Shape(s) && Enabled(s, a) && IsAdvance(a)
    ensures Apply(settings, s, a) == Advance(s, a.i, pc, store, event)
    ensures Changes(s.Store(), store, s.pipes[a.i].task, status)
    ensures Allowed(s, a.i, pc, status, event)
  {
    match a {
      case Assign(i) => pc, store, status, event := AssignShape(s, i);
      case Begin(i) => pc, store, status, event := BeginShape(s, i);
      case Finish(i, result) => pc, store, status, event := FinishShape(s, i, result);
      case Recover(i, jitter) => pc, store, status, event := RecoverShape(settings, s, i, jitter);
      case Judge(i, variance) => pc, store, status, event := JudgeShape(s, i, variance);
    }
  }

  lemma AdvanceKeepsShape(s: System, i: nat, pc: Pc, store: Store, status: TaskStatus, event: Event)
    requires Shape(s) && i < |s.pipes| && Changes(s.Store(), store, s.pipes[i].task, status)
    ensures Shape(Advance(s, i, pc, store, event))
    ensures forall spec :: Staffed(s.Store(), spec) <==> Staffed(store, spec)
  {
    forall spec
      ensures Staffed(s.Store(), spec) <==> Staffed(store, spec)
    {
      var t := WorkerTypeFor(spec.partition);
      assert forall w :: w in store.workerOrder ==> (s.Store().Available(w, t) <==> store.Available(w, t));
    }
  }

  // ---- Who last wrote a task's state ----

  /**
   A task that has left the pending list is in a state that some coroutine
   still carries, or in a state in which it is over.
   */
  ghost predicate Covered(s: System, id: string)
    requires id in s.Tasks()
  {
    match s.Tasks()[id].status
    case CREATED => HasPipe(s.pipes, id, AtBackoff) || HasPipe(s.pipes, id, AtStart)
    case QUEUED => Staffed(s.Store(), s.Tasks()[id].spec) ==> HasPipe(s.pipes, id, AtStart)
    case ASSIGNED => HasPipe(s.pipes, id, AtAssigned)
    case RUNNING => HasPipe(s.pipes, id, AtRunning)
    case FAILED => HasPipe(s.pipes, id, AtFailed) || DeadLettered(id) in s.log
    case COMPLETED => HasPipe(s.pipes, id, AtCompleted) || ValidationFailed(id) in s.log
    case VALIDATED => TaskValidated(id) in s.log
    case PARTITIONED => false
    case STORED => false
  }

  /** A pending task is exactly as the planner made it and no coroutine ever took it up. */
  ghost predicate PendingFresh(s: System) {
    forall k :: 0 <= k < |s.desk.pending| ==>
      var spec := s.desk.pending[k];
      && spec.taskId in s.Tasks()
      && s.Tasks()[spec.taskId] == NewTask(spec)
      && !Touched(s.pipes, spec.taskId)
  }

  ghost predicate AllCovered(s: System) {
    forall id :: id in s.Tasks() && !Pending(s, id) ==> Covered(s, id)
  }

  /** Only tasks with a worker to run them ever get beyond QUEUED. */
  ghost predicate StartedStaffed(s: System) {
    forall id :: id in s.Tasks() && !Pending(s, id) && s.Tasks()[id].status != QUEUED ==>
      Staffed(s.Store(), s.Tasks()[id].spec)
  }

  /** While a task is QUEUED, none of its coroutines has got past assignment. */
  ghost predicate QueuedUntaken(s: System) {
    forall k :: 0 <= k < |s.pipes| && s.pipes[k].task in s.Tasks() && s.Tasks()[s.pipes[k].task].status == QUEUED ==>
      StageOf(s.pipes[k].pc) in {AtStart, AtWaiting, AtDone}
  }

  /** No lost wake-up: a ready pending task has a coroutine about to schedule it. */
  ghost predicate WakeUpDue(s: System) {
    (exists k :: 0 <= k < |s.desk.pending| && s.desk.Ready(s.desk.pending[k])) ==>
      exists i :: 0 <= i < |s.pipes| && s.pipes[i].pc.Judged?
  }

  ghost predicate LifecycleInv(s: System) {
    && Shape(s) && Sorted(s.Store()) && PendingFresh(s)
    && AllCovered(s) && StartedStaffed(s) && QueuedUntaken(s) && WakeUpDue(s)
  }

  // ---- Coroutine bookkeeping ----

  lemma HasPipeKept(pipes: seq<Pipe>, i: nat, x: Pipe, more: seq<Pipe>, id: string, stage: Stage)
    requires i < |pipes| && HasPipe(pipes, id, stage) && !IsAt(pipes[i], id, stage)
    ensures HasPipe(pipes[i := x] + more, id, stage)
  {
    var k :| 0 <= k < |pipes| && IsAt(pipes[k], id, stage);
    assert (pipes[i := x] + more)[k] == pipes[k];
  }

  lemma HasPipeNew(pipes: seq<Pipe>, i: nat, x: Pipe, more: seq<Pipe>, stage: Stage)
    requires i < |pipes| && IsAt(x, x.task, stage)
    ensures HasPipe(pipes[i := x] + more, x.task, stage)
  {
    assert (pipes[i := x] + more)[i] == x;
  }

  lemma PendingNotTouched(s: System, i: nat)
    requires PendingFresh(s) && i < |s.pipes|
    ensures !Pending(s, s.pipes[i].task)
  {
  }

  // ---- Preservation by a row of the table ----

  lemma AdvanceKeepsPending(s: System, i: nat, pc: Pc, store: Store, status: TaskStatus, event: Event)
    requires Shape(s) && PendingFresh(s) && i < |s.pipes|
    requires Changes(s.Store(), store, s.pipes[i].task, status)
    ensures PendingFresh(Advance(s, i, pc, store, event))
  {
    var s' := Advance(s, i, pc, store, event);
    forall k | 0 <= k < |s'.desk.pending|
      ensures var spec := s'.desk.pending[k];
              && spec.taskId in s'.Tasks() && s'.Tasks()[spec.taskId] == NewTask(spec)
              && !Touched(s'.pipes, spec.taskId)
    {
      var id := s'.desk.pending[k].taskId;
      assert !Touched(s.pipes, id);
      assert s.pipes[i].task != id;
      assert forall m :: 0 <= m < |s'.pipes| ==> s'.pipes[m].task == s.pipes[m].task;
    }
  }

  /** Another task's writer is still where it was. */
  lemma AdvanceKeepsOthersCovered(s: System, i: nat, pc: Pc, store: Store, status: TaskStatus, event: Event, id: string)
    requires Shape(s) && i < |s.pipes| && id in s.Tasks() && id != s.pipes[i].task
    requires Changes(s.Store(), store, s.pipes[i].task, status) && Covered(s, id)
    ensures Covered(Advance(s, i, pc, store, event), id)
  {
    var s' := Advance(s, i, pc, store, event);
    AdvanceKeepsShape(s, i, pc, store, status, event);
    assert s'.pipes == s.pipes[i := Pipe(s.pipes[i].task, pc)] + [];
    forall stage | HasPipe(s.pipes, id, stage)
      ensures HasPipe(s'.pipes, id, stage)
    {
      HasPipeKept(s.pipes, i, Pipe(s.pipes[i].task, pc), [], id, stage);
    }
    assert forall e :: e in s.log ==> e in s'.log;
  }

  /** The rows that write no state: rejection, and waiting for a worker that does not exist. */
  lemma AdvanceLeavesCovered(s: System, i: nat, pc: Pc, store: Store, status: TaskStatus, event: Event)
    requires Shape(s) && i < |s.pipes|
    requires Changes(s.Store(), store, s.pipes[i].task, status) && Allowed(s, i, pc, status, event)
    requires event.ValidationFailed? || event.WorkerUnavailable? || event.TaskDeferred?
    requires Covered(s, s.pipes[i].task)
    requires s.Tasks()[s.pipes[i].task].status == QUEUED || Staffed(s.Store(), s.Tasks()[s.pipes[i].task].spec)
    ensures Covered(Advance(s, i, pc, store, event), s.pipes[i].task)
  {
    var id := s.pipes[i].task;
    var s' := Advance(s, i, pc, store, event);
    AdvanceKeepsShape(s, i, pc, store, status, event);
    assert s'.pipes == s.pipes[i := Pipe(id, pc)] + [];
    assert s'.log[|s.log|] == event;
    assert forall e :: e in s.log ==> e in s'.log;
    forall stage | HasPipe(s.pipes, id, stage) && stage != StageOf(s.pipes[i].pc)
      ensures HasPipe(s'.pipes, id, stage)
    {
      HasPipeKept(s.pipes, i, Pipe(id, pc), [], id, stage);
    }
  }

  /** The moving coroutine carries the state it has just written. */
  lemma AdvanceCoversOwn(s: System, i: nat, pc: Pc, store: Store, status: TaskStatus, event: Event)
    requires Shape(s) && i < |s.pipes|
    requires Changes(s.Store(), store, s.pipes[i].task, status) && Allowed(s, i, pc, status, event)
    requires Covered(s, s.pipes[i].task)
    requires s.Tasks()[s.pipes[i].task].status == QUEUED || Staffed(s.Store(), s.Tasks()[s.pipes[i].task].spec)
    ensures Covered(Advance(s, i, pc, store, event), s.pipes[i].task)
  {
    var id := s.pipes[i].task;
    var s' := Advance(s, i, pc, store, event);
    assert s'.log[|s.log|] == event;
    if event.ValidationFailed? || event.WorkerUnavailable? || event.TaskDeferred? {
      AdvanceLeavesCovered(s, i, pc, store, status, event);
    } else {
      assert s'.pipes == s.pipes[i := Pipe(id, pc)] + [];
      HasPipeNew(s.pipes, i, Pipe(id, pc), [], StageOf(pc));
    }
  }

  lemma AdvanceKeepsSorted(s: Store, r: Store, id: string, status: TaskStatus)
    requires s.WellFormed() && r.WellFormed() && Sorted(s) && Changes(s, r, id, status)
    ensures Sorted(r)
  {
    forall n | 0 <= n < |r.taskOrder|
      ensures DependsBackwards(r, n)
    {
      assert DependsBackwards(s, n);
    }
  }

  /** Whoever takes a task beyond QUEUED has a worker for it. */
  lemma OwnIsStaffed(s: System, i: nat, pc: Pc, status: TaskStatus, event: Event)
    requires Shape(s) && PendingFresh(s) && StartedStaffed(s) && QueuedUntaken(s) && i < |s.pipes|
    requires Allowed(s, i, pc, status, event)
    ensures status != QUEUED ==> Staffed(s.Store(), s.Tasks()[s.pipes[i].task].spec)
  {
    PendingNotTouched(s, i);
  }

  lemma StaysStaffed(s: Store, r: Store, own: string, status: TaskStatus, id: string)
    requires s.WellFormed() && Changes(s, r, own, status) && id in s.tasks && Staffed(s, s.tasks[id].spec)
    ensures Staffed(r, r.tasks[id].spec)
  {
    var t := WorkerTypeFor(s.tasks[id].spec.partition);
    var w :| w in s.workerOrder && s.Available(w, t);
    assert r.Available(w, t);
  }

  lemma AdvanceKeepsStaffed(s: System, i: nat, pc: Pc, store: Store, status: TaskStatus, event: Event)
    requires Shape(s) && PendingFresh(s) && StartedStaffed(s) && QueuedUntaken(s) && i < |s.pipes|
    requires Changes(s.Store(), store, s.pipes[i].task, status) && Allowed(s, i, pc, status, event)
    ensures StartedStaffed(Advance(s, i, pc, store, event))
  {
    var s' := Advance(s, i, pc, store, event);
    OwnIsStaffed(s, i, pc, status, event);
    forall id | id in s'.Tasks() && !Pending(s', id) && s'.Tasks()[id].status != QUEUED
      ensures Staffed(store, s'.Tasks()[id].spec)
    {
      assert Staffed(s.Store(), s.Tasks()[id].spec);
      StaysStaffed(s.Store(), store, s.pipes[i].task, status, id);
    }
  }

  lemma AdvanceKeepsUntaken(s: System, i: nat, pc: Pc, store: Store, status: TaskStatus, event: Event)
    requires QueuedUntaken(s) && i < |s.pipes|
    requires Changes(s.Store(), store, s.pipes[i].task, status) && Allowed(s, i, pc, status, event)
    ensures QueuedUntaken(Advance(s, i, pc, store, event))
  {
    var s' := Advance(s, i, pc, store, event);
    assert status == QUEUED ==> s.Tasks()[s.pipes[i].task].status == QUEUED && StageOf(pc) in {AtWaiting, AtDone};
    assert forall k :: 0 <= k < |s'.pipes| && k != i ==> s'.pipes[k] == s.pipes[k];
  }

  /** Unless the task moves to VALIDATED, a step settles no dependency that was open. */
  lemma SettledOnlyShrinks(s: Store, r: Store, id: string, status: TaskStatus)
    requires Changes(s, r, id, status)
    requires status !in {VALIDATED, STORED} || s.Settled(id)
    ensures forall x :: r.Settled(x) ==> s.Settled(x)
    ensures forall spec :: r.DependenciesMet(spec) ==> s.DependenciesMet(spec)
  {
  }

  lemma AdvanceKeepsWakeUp(s: System, i: nat, pc: Pc, store: Store, status: TaskStatus, event: Event)
    requires WakeUpDue(s) && i < |s.pipes|
    requires Changes(s.Store(), store, s.pipes[i].task, status) && Allowed(s, i, pc, status, event)
    requires s.Tasks()[s.pipes[i].task].status != STORED
    ensures WakeUpDue(Advance(s, i, pc, store, event))
  {
    var s' := Advance(s, i, pc, store, event);
    if pc == Judged {
      assert s'.pipes[i].pc.Judged?;
    } else {
      SettledOnlyShrinks(s.Store(), store, s.pipes[i].task, status);
      if k :| 0 <= k < |s.desk.pending| && s'.desk.Ready(s.desk.pending[k]) {
        assert s.desk.Ready(s.desk.pending[k]);
        var m :| 0 <= m < |s.pipes| && s.pipes[m].pc.Judged?;
        assert s'.pipes[m] == s.pipes[m];
      }
    }
  }

  lemma AdvanceKeepsLifecycle(s: System, i: nat, pc: Pc, store: Store, status: TaskStatus, event: Event)
    requires LifecycleInv(s) && i < |s.pipes|
    requires Changes(s.Store(), store, s.pipes[i].task, status) && Allowed(s, i, pc, status, event)
    ensures LifecycleInv(Advance(s, i, pc, store, event))
  {
    var s' := Advance(s, i, pc, store, event);
    AdvanceKeepsShape(s, i, pc, store, status, event);
    AdvanceKeepsPending(s, i, pc, store, status, event);
    AdvanceKeepsSorted(s.Store(), store, s.pipes[i].task, status);
    AdvanceKeepsStaffed(s, i, pc, store, status, event);
    AdvanceKeepsUntaken(s, i, pc, store, status, event);
    PendingNotTouched(s, i);
    assert Covered(s, s.pipes[i].task);
    AdvanceKeepsWakeUp(s, i, pc, store, status, event);
    forall id | id in s'.Tasks() && !Pending(s', id)
      ensures Covered(s', id)
    {
      if id == s.pipes[i].task {
        AdvanceCoversOwn(s, i, pc, store, status, event);
      } else {
        AdvanceKeepsOthersCovered(s, i, pc, store, status, event, id);
      }
    }
  }

  // ---- Preservation by respawning ----

  lemma RespawnKeepsCovered(s: System, i: nat, x: string)
    requires i < |s.pipes| && s.pipes[i].pc.Backoff? && x in s.Tasks() && Covered(s, x)
    ensures Covered(RespawnStep(s, i), x)
  {
    var s' := RespawnStep(s, i);
    var id := s.pipes[i].task;
    forall stage | HasPipe(s.pipes, x, stage) && !IsAt(s.pipes[i], x, stage)
      ensures HasPipe(s'.pipes, x, stage)
    {
      HasPipeKept(s.pipes, i, Pipe(id, Done), [Pipe(id, Start)], x, stage);
    }
    if x == id {
      assert IsAt(s'.pipes[|s.pipes|], id, AtStart);
    }
  }

  lemma RespawnKeepsFresh(s: System, i: nat)
    requires Shape(s) && PendingFresh(s) && QueuedUntaken(s) && WakeUpDue(s) && i < |s.pipes| && s.pipes[i].pc.Backoff?
    ensures Shape(RespawnStep(s, i)) && PendingFresh(RespawnStep(s, i))
    ensures QueuedUntaken(RespawnStep(s, i)) && WakeUpDue(RespawnStep(s, i))
  {
    var s' := RespawnStep(s, i);
    var id := s.pipes[i].task;
    PendingNotTouched(s, i);
    assert forall k :: 0 <= k < |s'.pipes| ==> s'.pipes[k].task == if k < |s.pipes| then s.pipes[k].task else id;
    assert forall k :: 0 <= k < |s.pipes| && k != i ==> s'.pipes[k] == s.pipes[k];
    forall k | 0 <= k < |s'.desk.pending|
      ensures !Touched(s'.pipes, s'.desk.pending[k].taskId)
    {
      assert !Touched(s.pipes, s.desk.pending[k].taskId);
    }
  }

  lemma RespawnKeepsLifecycle(s: System, i: nat)
    requires LifecycleInv(s) && i < |s.pipes| && s.pipes[i].pc.Backoff?
    ensures LifecycleInv(RespawnStep(s, i))
  {
    RespawnKeepsFresh(s, i);
    forall x | x in s.Tasks() && !Pending(s, x)
      ensures Covered(RespawnStep(s, i), x)
    {
      RespawnKeepsCovered(s, i, x);
    }
  }

  // ---- Preservation by scheduling and spawning ----

  /** Everything the invariant asks for, except that coroutines have been spawned and woken. */
  ghost predicate ReadyToRelease(s: System) {
    && Shape(s) && Sorted(s.Store()) && PendingFresh(s) && StartedStaffed(s) && QueuedUntaken(s)
    && forall id :: id in s.Tasks() && !Pending(s, id) && s.Tasks()[id].status != QUEUED ==> Covered(s, id)
  }

  /** The pending tasks that a scheduling round sends out. */
  predicate Goes(s: System, id: string) {
    Pending(s, id) && id in s.Tasks() && s.Store().DependenciesMet(s.Tasks()[id].spec)
  }

  lemma PendingSpec(s: System, id: string)
    requires PendingFresh(s) && Pending(s, id)
    ensures id in s.Tasks() && s.Tasks()[id] == NewTask(s.Tasks()[id].spec)
    ensures s.Tasks()[id].spec in s.desk.pending
    ensures !Touched(s.pipes, id)
  {
    var k :| 0 <= k < |s.desk.pending| && Ids(s.desk.pending)[k] == id;
    assert s.desk.pending[k].taskId == id;
  }

  lemma IdsMember(tasks: seq<TaskSpec>, id: string)
    ensures id in Ids(tasks) <==> exists k :: 0 <= k < |tasks| && tasks[k].taskId == id
  {
    assert forall k :: 0 <= k < |tasks| ==> Ids(tasks)[k] == tasks[k].taskId;
  }

  /** Which ids a filter of the pending list keeps. */
  lemma FilteredIds(s: System, keep: TaskSpec -> bool, id: string)
    requires Shape(s) && PendingFresh(s)
    ensures id in Ids(Filter(s.desk.pending, keep)) <==> Pending(s, id) && keep(s.Tasks()[id].spec)
  {
    var kept := Filter(s.desk.pending, keep);
    IdsMember(kept, id);
    IdsMember(s.desk.pending, id);
    if id in Ids(kept) {
      var k :| 0 <= k < |kept| && kept[k].taskId == id;
      FilterMember(s.desk.pending, keep, kept[k]);
      var m :| 0 <= m < |s.desk.pending| && s.desk.pending[m] == kept[k];
      assert s.Tasks()[id] == NewTask(s.desk.pending[m]);
    }
    if Pending(s, id) && keep(s.Tasks()[id].spec) {
      PendingSpec(s, id);
      FilterMember(s.desk.pending, keep, s.Tasks()[id].spec);
      var k :| 0 <= k < |kept| && kept[k] == s.Tasks()[id].spec;
      assert kept[k].taskId == id;
    }
  }

  /** What one scheduling round does: ready pending tasks become QUEUED, nothing else changes. */
  lemma ReleaseEffect(s: System)
    requires Shape(s) && PendingFresh(s)
    ensures var s' := Release(s);
            && s'.desk.Usable() && s'.log == s.log
            && s'.Store() == s.Store().(tasks := s'.Tasks())
            && s'.Tasks().Keys == s.Tasks().Keys
            && (forall id :: id in s.Tasks() ==>
                  s'.Tasks()[id] == if Goes(s, id) then Requeued(s.Tasks()[id], s'.Tasks()[id]) else s.Tasks()[id])
            && (forall id :: Pending(s', id) <==> Pending(s, id) && !Goes(s, id))
            && (forall k :: 0 <= k < |s'.desk.pending| ==> s'.desk.pending[k] in s.desk.pending
                                                           && !s'.desk.Ready(s'.desk.pending[k]))
            && s'.pipes == s.pipes + Starts(s'.Store().TasksByStatus(QUEUED))
            && SameSettled(s.Store(), s'.Store())
  {
    var s' := Release(s);
    SettleIsFilter(s.desk);
    SettleIsComplete(s.desk);
    forall id
      ensures id in Ids(Filter(s.desk.pending, IsReady(s.Store()))) <==> Goes(s, id)
      ensures Pending(s', id) <==> Pending(s, id) && !Goes(s, id)
    {
      FilteredIds(s, IsReady(s.Store()), id);
      FilteredIds(s, IsHeldBack(s.Store()), id);
    }
    forall k | 0 <= k < |s'.desk.pending|
      ensures s'.desk.pending[k] in s.desk.pending
    {
      FilterMember(s.desk.pending, IsHeldBack(s.Store()), s'.desk.pending[k]);
    }
  }

  lemma StartsHavePipes(pipes: seq<Pipe>, s: Store, id: string)
    requires s.WellFormed() && s.HasStatus(id, QUEUED)
    ensures HasPipe(pipes + Starts(s.TasksByStatus(QUEUED)), id, AtStart)
  {
    var queued := s.TasksByStatus(QUEUED);
    FilterMember(s.taskOrder, s.StatusIs(QUEUED), id);
    var n :| 0 <= n < |queued| && queued[n] == id;
    assert IsAt((pipes + Starts(queued))[|pipes| + n], id, AtStart);
  }

  lemma StartsAreForQueued(pipes: seq<Pipe>, s: Store)
    ensures var all := pipes + Starts(s.TasksByStatus(QUEUED));
            forall k :: |pipes| <= k < |all| ==> all[k].pc == Start && s.HasStatus(all[k].task, QUEUED)
  {
    var queued := s.TasksByStatus(QUEUED);
    forall n | 0 <= n < |queued|
      ensures s.HasStatus(queued[n], QUEUED)
    {
      FilterMember(s.taskOrder, s.StatusIs(QUEUED), queued[n]);
    }
  }

  /** Exactly the QUEUED tasks get a new coroutine. */
  lemma SpawnedPipes(s: System, id: string)
    requires Shape(s) && PendingFresh(s)
    ensures var s' := Release(s);
            && (id in s'.Tasks() && s'.Tasks()[id].status == QUEUED ==> HasPipe(s'.pipes, id, AtStart))
            && (forall k :: |s.pipes| <= k < |s'.pipes| ==>
                  s'.pipes[k].pc == Start && s'.pipes[k].task in s'.Tasks()
                  && s'.Tasks()[s'.pipes[k].task].status == QUEUED)
  {
    ReleaseEffect(s);
    var s' := Release(s);
    if s'.Store().HasStatus(id, QUEUED) {
      StartsHavePipes(s.pipes, s'.Store(), id);
    }
    StartsAreForQueued(s.pipes, s'.Store());
  }

  lemma ReleaseShape(s: System)
    requires Shape(s) && PendingFresh(s)
    ensures Shape(Release(s))
    ensures forall spec :: Staffed(s.Store(), spec) <==> Staffed(Release(s).Store(), spec)
  {
    ReleaseEffect(s);
    SpawnedPipes(s, "");
  }

  lemma ReleaseKeepsShape(s: System)
    requires Shape(s) && Sorted(s.Store()) && PendingFresh(s)
    ensures Shape(Release(s)) && Sorted(Release(s).Store()) && PendingFresh(Release(s))
  {
    ReleaseEffect(s);
    ReleaseShape(s);
    SpawnedPipes(s, "");
    var s' := Release(s);
    forall n | 0 <= n < |s'.Store().taskOrder|
      ensures DependsBackwards(s'.Store(), n)
    {
      assert DependsBackwards(s.Store(), n);
    }
    forall k | 0 <= k < |s'.desk.pending|
      ensures var spec := s'.desk.pending[k];
              && spec.taskId in s'.Tasks() && s'.Tasks()[spec.taskId] == NewTask(spec)
              && !Touched(s'.pipes, spec.taskId)
    {
      var spec := s'.desk.pending[k];
      var m :| 0 <= m < |s.desk.pending| && s.desk.pending[m] == spec;
      assert !s.Store().DependenciesMet(spec);
      assert !Touched(s.pipes, spec.taskId);
    }
  }

  lemma ReleaseCovers(s: System, id: string)
    requires ReadyToRelease(s) && id in Release(s).Tasks() && !Pending(Release(s), id)
    ensures Covered(Release(s), id)
  {
    ReleaseEffect(s);
    SpawnedPipes(s, id);
    ReleaseShape(s);
    var s' := Release(s);
    if s'.Tasks()[id].status != QUEUED {
      assert Covered(s, id);
      forall stage | HasPipe(s.pipes, id, stage)
        ensures HasPipe(s'.pipes, id, stage)
      {
        var k :| 0 <= k < |s.pipes| && IsAt(s.pipes[k], id, stage);
        assert s'.pipes[k] == s.pipes[k];
      }
    }
  }

  lemma ReleaseEstablishes(s: System)
    requires ReadyToRelease(s)
    ensures LifecycleInv(Release(s))
  {
    var s' := Release(s);
    ReleaseEffect(s);
    SpawnedPipes(s, "");
    ReleaseShape(s);
    ReleaseKeepsShape(s);
    forall id | id in s'.Tasks() && !Pending(s', id)
      ensures Covered(s', id)
    {
      ReleaseCovers(s, id);
    }
    forall k | 0 <= k < |s.pipes|
      ensures s'.pipes[k] == s.pipes[k] && !Goes(s, s.pipes[k].task)
    {
      PendingNotTouched(s, k);
    }
  }

  lemma EndKeepsFresh(s: System, i: nat)
    requires PendingFresh(s) && i < |s.pipes|
    ensures PendingFresh(s.(pipes := s.pipes[i := Pipe(s.pipes[i].task, Done)]))
  {
    var ended := s.(pipes := s.pipes[i := Pipe(s.pipes[i].task, Done)]);
    forall k | 0 <= k < |ended.desk.pending|
      ensures !Touched(ended.pipes, ended.desk.pending[k].taskId)
    {
      assert !Touched(s.pipes, s.desk.pending[k].taskId);
    }
  }

  lemma EndedKeepsCovered(s: System, i: nat, id: string)
    requires i < |s.pipes| && s.pipes[i].pc.Judged? && id in s.Tasks() && Covered(s, id)
    ensures Covered(s.(pipes := s.pipes[i := Pipe(s.pipes[i].task, Done)]), id)
  {
    var x := Pipe(s.pipes[i].task, Done);
    assert s.pipes[i := x] == s.pipes[i := x] + [];
    forall stage | HasPipe(s.pipes, id, stage) && stage != AtJudged
      ensures HasPipe(s.pipes[i := x], id, stage)
    {
      HasPipeKept(s.pipes, i, x, [], id, stage);
    }
  }

  /** A coroutine that ends after judging was nobody's witness. */
  lemma EndedIsReady(s: System, i: nat)
    requires LifecycleInv(s) && i < |s.pipes| && s.pipes[i].pc.Judged?
    ensures ReadyToRelease(s.(pipes := s.pipes[i := Pipe(s.pipes[i].task, Done)]))
  {
    var ended := s.(pipes := s.pipes[i := Pipe(s.pipes[i].task, Done)]);
    forall id | id in s.Tasks() && !Pending(s, id) && s.Tasks()[id].status != QUEUED
      ensures Covered(ended, id)
    {
      EndedKeepsCovered(s, i, id);
    }
    EndKeepsFresh(s, i);
  }

  lemma WakeKeepsLifecycle(s: System, i: nat)
    requires LifecycleInv(s) && i < |s.pipes| && s.pipes[i].pc.Judged?
    ensures LifecycleInv(WakeStep(s, i))
  {
    EndedIsReady(s, i);
    ReleaseEstablishes(s.(pipes := s.pipes[i := Pipe(s.pipes[i].task, Done)]));
  }

  // ---- Reachable states ----

  lemma NextKeepsLifecycle(settings: Settings, s: System, s': System)
    requires LifecycleInv(s) && Next(settings, s, s')
    ensures LifecycleInv(s')
  {
    var a :| StepBy(settings, s, a, s');
    match a {
      case Wake(i) => WakeKeepsLifecycle(s, i);
      case Respawn(i) => RespawnKeepsLifecycle(s, i);
      case _ =>
        var pc, store, status, event := StepShape(settings, s, a);
        AdvanceKeepsLifecycle(s, a.i, pc, store, status, event);
    }
  }

  lemma AddOne(s: Store, task: Task)
    requires s.WellFormed() && task.spec.taskId !in s.tasks
    ensures s.AddTask(task).WellFormed()
  {
  }

  lemma {:induction false} AddFirstEffect(pool: Store, plan: seq<TaskSpec>, n: nat)
    requires pool.WellFormed() && pool.tasks == map[] && pool.taskOrder == [] && Distinct(Ids(plan)) && n <= |plan|
    ensures AddFirst(pool, plan, n) == pool.(tasks := AddFirst(pool, plan, n).tasks, taskOrder := Ids(plan)[..n])
    ensures AddFirst(pool, plan, n).WellFormed()
  {
    if n == 0 {
    } else {
      AddFirstEffect(pool, plan, n - 1);
      var before := AddFirst(pool, plan, n - 1);
      var id := plan[n - 1].taskId;
      assert Ids(plan)[n - 1] == id && id !in Ids(plan)[..n - 1];
      assert id !in before.taskOrder;
      assert Ids(plan)[..n] == Ids(plan)[..n - 1] + [id];
      AddOne(before, NewTask(plan[n - 1]));
    }
  }

  /** The task is in the store as the planner made it. */
  ghost predicate IsStored(s: Store, spec: TaskSpec) {
    spec.taskId in s.tasks && s.tasks[spec.taskId] == NewTask(spec)
  }

  lemma {:induction false} AddFirstStores(pool: Store, plan: seq<TaskSpec>, n: nat, k: nat)
    requires Distinct(Ids(plan)) && k < n <= |plan|
    ensures IsStored(AddFirst(pool, plan, n), plan[k])
  {
    if k == n - 1 {
    } else {
      AddFirstStores(pool, plan, n - 1, k);
      assert Ids(plan)[k] != Ids(plan)[n - 1];
    }
  }

  /** Storing a valid plan in an empty store: its tasks in plan order, all freshly created. */
  lemma AddAllEffect(pool: Store, plan: seq<TaskSpec>)
    requires pool.WellFormed() && pool.tasks == map[] && pool.taskOrder == [] && Distinct(Ids(plan))
    ensures AddAll(pool, plan) == pool.(tasks := AddAll(pool, plan).tasks, taskOrder := Ids(plan))
    ensures AddAll(pool, plan).WellFormed()
    ensures forall k :: 0 <= k < |plan| ==> IsStored(AddAll(pool, plan), plan[k])
  {
    AddFirstEffect(pool, plan, |plan|);
    assert Ids(plan)[..|plan|] == Ids(plan);
    forall k | 0 <= k < |plan|
      ensures IsStored(AddAll(pool, plan), plan[k])
    {
      AddFirstStores(pool, plan, |plan|, k);
    }
  }

  lemma LoadedIsSorted(pool: Store, plan: seq<TaskSpec>)
    requires pool.WellFormed() && pool.tasks == map[] && pool.taskOrder == [] && ValidPlan(plan)
    ensures AddAll(pool, plan).WellFormed() && Sorted(AddAll(pool, plan))
  {
    AddAllEffect(pool, plan);
    var store := AddAll(pool, plan);
    forall n | 0 <= n < |store.taskOrder|
      ensures DependsBackwards(store, n)
    {
      assert IsStored(store, plan[n]) && store.taskOrder[n] == plan[n].taskId;
      assert store.taskOrder[..n] == Ids(plan[..n]);
    }
  }

  lemma LoadedIsReady(pool: Store, broker: Broker<Message>, plan: seq<TaskSpec>)
    requires FreshStart(pool, broker) && ValidPlan(plan)
    ensures ReadyToRelease(Loaded(pool, broker, plan))
    ensures forall id :: id in Loaded(pool, broker, plan).Tasks() ==> Pending(Loaded(pool, broker, plan), id)
  {
    var loaded := Loaded(pool, broker, plan);
    AddAllEffect(pool, plan);
    LoadedIsSorted(pool, plan);
    forall id | id in loaded.Tasks()
      ensures Pending(loaded, id) && loaded.Tasks()[id].spec.taskId == id
    {
      assert id in Ids(plan);
      var k :| 0 <= k < |plan| && Ids(plan)[k] == id;
      assert IsStored(loaded.Store(), plan[k]);
    }
    assert forall k :: 0 <= k < |plan| ==> IsStored(loaded.Store(), plan[k]);
  }

  lemma InitialLifecycle(s: System, pool: Store, broker: Broker<Message>, plan: seq<TaskSpec>)
    requires Initial(s, pool, broker, plan)
    ensures LifecycleInv(s)
  {
    LoadedIsReady(pool, broker, plan);
    ReleaseEstablishes(Loaded(pool, broker, plan));
  }

  /** The lifecycle invariant holds in every state of every run. */
  lemma {:induction false} RunKeepsLifecycle(
    settings: Settings, pool: Store, broker: Broker<Message>, plan: seq<TaskSpec>, run: seq<System>, k: nat)
    requires IsRun(settings, pool, broker, plan, run) && k < |run|
    ensures LifecycleInv(run[k])
  {
    if k == 0 {
      InitialLifecycle(run[0], pool, broker, plan);
    } else {
      RunKeepsLifecycle(settings, pool, broker, plan, run, k - 1);
      assert Next(settings, run[k - 1], run[k - 1 + 1]);
      NextKeepsLifecycle(settings, run[k - 1], run[k]);
    }
  }

  lemma RunKeepsFresh(
    settings: Settings, pool: Store, broker: Broker<Message>, plan: seq<TaskSpec>, run: seq<System>, k: nat)
    requires IsRun(settings, pool, broker, plan, run) && k < |run|
    ensures PendingFresh(run[k])
  {
    RunKeepsLifecycle(settings, pool, broker, plan, run, k);
  }

  lemma RunKeepsShape(
    settings: Settings, pool: Store, broker: Broker<Message>, plan: seq<TaskSpec>, run: seq<System>, k: nat)
    requires IsRun(settings, pool, broker, plan, run) && k < |run|
    ensures Shape(run[k])
  {
    RunKeepsLifecycle(settings, pool, broker, plan, run, k);
  }

  /** In every reachable state no task is PARTITIONED or STORED, the two states that only the documents use. */
  lemma NeverPartitionedOrStored(
    settings: Settings, pool: Store, broker: Broker<Message>, plan: seq<TaskSpec>, run: seq<System>, k: nat, id: string)
    requires IsRun(settings, pool, broker, plan, run) && k < |run| && id in run[k].Tasks()
    ensures run[k].Tasks()[id].status !in {PARTITIONED, STORED}
  {
    RunKeepsLifecycle(settings, pool, broker, plan, run, k);
    if Pending(run[k], id) {
      PendingSpec(run[k], id);
    } else {
      assert Covered(run[k], id);
    }
  }
}
