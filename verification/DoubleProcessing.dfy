/**
 How a task is taken up twice: a coroutine that wakes up while another is still on
 its way to a QUEUED task spawns a second one, and the slower of the two
 overwrites the VALIDATED state that the faster one has reached.
 */
module DoubleProcessing {
  import opened Models
  import opened TaskStores
  import opened MemoryQueues
  import opened Schedulers
  import opened Pipelines
  import opened Lifecycle
  import opened Exclusive
  import opened Overlap
  import opened Driving

  /** The last step of the run takes the task from VALIDATED to another state. */
  ghost predicate EndsOverwritten(run: seq<System>, id: string, after: TaskStatus) {
    && |run| > 1 && after != VALIDATED
    && run[|run| - 2].Store().HasStatus(id, VALIDATED) && run[|run| - 1].Store().HasStatus(id, after)
  }

  // ---- One wake-up too many ----

  /** Dependencies come earlier in the store, so no task waits for itself. */
  lemma NotItsOwnDependency(s: Store, id: string)
    requires s.WellFormed() && Sorted(s) && id in s.tasks
    ensures id !in s.tasks[id].spec.dependencies
  {
    var i :| 0 <= i < |s.taskOrder| && s.taskOrder[i] == id;
    assert DependsBackwards(s, i);
    var deps := s.tasks[id].spec.dependencies;
    assert forall k :: 0 <= k < |deps| ==> deps[k] in s.taskOrder[..i];
  }

  /** Coroutine `i` is about to wake up; `k` is on its way to a QUEUED task that is ready and can run. */
  ghost predicate WillDouble(s: System, i: nat, k: nat) {
    && i < |s.pipes| && s.pipes[i].pc.Judged? && OnItsWay(s, k)
    && s.Store().DependenciesMet(s.Tasks()[s.pipes[k].task].spec)
  }

  /** Coroutines `k` and `m` are both about to ask for a worker for the same task. */
  ghost predicate Doubled(s: System, k: nat, m: nat, id: string) {
    && CanRun(s, k) && m < |s.pipes| && m != k && s.pipes[k].task == id
    && (s.pipes[k].pc.Start? || s.pipes[k].pc.Waiting?) && s.pipes[m] == Pipe(id, Start)
  }

  lemma EndKeepsComing(s: System, i: nat, k: nat)
    requires Shape(s) && PendingFresh(s) && QueuedUntaken(s) && WillDouble(s, i, k)
    ensures var ended := s.(pipes := s.pipes[i := Pipe(s.pipes[i].task, Done)]);
            && Shape(ended) && PendingFresh(ended) && OnItsWay(ended, k) && ended.pipes[k] == s.pipes[k]
            && (s.pipes[k].pc.Start? || s.pipes[k].pc.Waiting?)
  {
    EndKeepsFresh(s, i);
    assert StageOf(s.pipes[k].pc) in {AtStart, AtWaiting, AtDone} && k != i;
  }

  lemma ReleaseDoubles(s: System, k: nat) returns (m: nat)
    requires Shape(s) && PendingFresh(s) && OnItsWay(s, k) && (s.pipes[k].pc.Start? || s.pipes[k].pc.Waiting?)
    requires s.Store().DependenciesMet(s.Tasks()[s.pipes[k].task].spec)
    requires s.pipes[k].task !in s.Tasks()[s.pipes[k].task].spec.dependencies
    ensures Doubled(Release(s), k, m, s.pipes[k].task)
  {
    ReleaseEffect(s);
    ReleaseShape(s);
    PendingNotTouched(s, k);
    assert Release(s).pipes[k] == s.pipes[k];
    m := SpawnedFor(s, s.pipes[k].task);
  }

  /** No dependency of the task is about to be taken up again. */
  ghost predicate Undisturbed(s: System, id: string) {
    id in s.Tasks() && forall d :: d in s.Tasks()[id].spec.dependencies ==> !HasPipe(s.pipes, d, AtStart)
  }

  lemma EndKeepsUndisturbed(s: System, i: nat, id: string)
    requires i < |s.pipes| && Undisturbed(s, id)
    ensures Undisturbed(s.(pipes := s.pipes[i := Pipe(s.pipes[i].task, Done)]), id)
  {
    var ended := s.(pipes := s.pipes[i := Pipe(s.pipes[i].task, Done)]);
    forall d, k | d in s.Tasks()[id].spec.dependencies && 0 <= k < |s.pipes|
      ensures !IsAt(ended.pipes[k], d, AtStart)
    {
      assert !HasPipe(s.pipes, d, AtStart) && !IsAt(s.pipes[k], d, AtStart);
    }
  }

  /** New coroutines are for QUEUED tasks, and a met dependency is none. */
  lemma ReleaseKeepsUndisturbed(s: System, id: string)
    requires Shape(s) && PendingFresh(s) && Undisturbed(s, id)
    requires s.Store().DependenciesMet(s.Tasks()[id].spec)
    ensures Undisturbed(Release(s), id)
  {
    var r := Release(s);
    ReleaseEffect(s);
    SpawnedPipes(s, "");
    var deps := s.Tasks()[id].spec.dependencies;
    forall d, k | d in deps && 0 <= k < |r.pipes|
      ensures !IsAt(r.pipes[k], d, AtStart)
    {
      if k < |s.pipes| {
        assert r.pipes[k] == s.pipes[k] && !HasPipe(s.pipes, d, AtStart) && !IsAt(s.pipes[k], d, AtStart);
      } else {
        var n :| 0 <= n < |deps| && deps[n] == d;
        assert s.Store().Settled(deps[n]) && r.Store().Settled(d);
      }
    }
  }

  /** After the wake-up the old coroutine is still on its way, and a new one is about to start. */
  lemma WakeDoubles(settings: Settings, s: System, i: nat, k: nat) returns (r: System, m: nat)
    requires LifecycleInv(s) && WillDouble(s, i, k)
    ensures StepBy(settings, s, Wake(i), r) && Doubled(r, k, m, s.pipes[k].task)
    ensures Undisturbed(s, s.pipes[k].task) ==> Undisturbed(r, s.pipes[k].task)
  {
    var ended := s.(pipes := s.pipes[i := Pipe(s.pipes[i].task, Done)]);
    r := WakeStep(s, i);
    NotItsOwnDependency(s.Store(), s.pipes[k].task);
    EndKeepsComing(s, i, k);
    m := ReleaseDoubles(ended, k);
    if Undisturbed(s, s.pipes[k].task) {
      EndKeepsUndisturbed(s, i, s.pipes[k].task);
      ReleaseKeepsUndisturbed(ended, s.pipes[k].task);
    }
  }

  /** In one step, in turn if `ordered`, the task goes from VALIDATED to another state. */
  ghost predicate Overwrites(
    settings: Settings, ordered: bool, t: System, u: System, id: string, after: TaskStatus)
  {
    && Step(settings, ordered, t, u) && after != VALIDATED
    && t.Store().HasStatus(id, VALIDATED) && u.Store().HasStatus(id, after)
  }

  /** If the new coroutine is late, the old one gets the task validated, and then the new one has it assigned. */
  lemma OvertakenReassigns(settings: Settings, from: System, s: System, k: nat, m: nat, id: string)
    returns (t: System, u: System)
    requires Reaches(settings, false, from, s) && Doubled(s, k, m, id)
    ensures Reaches(settings, false, from, t) && Overwrites(settings, false, t, u, id, ASSIGNED)
  {
    t := Drive(settings, from, s, k);
    MovedStaffed(s, t, k, Judged, VALIDATED);
    u := AssignMoves(settings, t, m);
  }

  // ---- The same with everybody in turn ----

  /** Two coroutines are on the same task, which is ready, and nobody is waiting to start. */
  ghost predicate Both(s: System, k: nat, m: nat, id: string) {
    && CanRun(s, k) && m < |s.pipes| && m != k && NoneAtStart(s)
    && s.pipes[k].task == id && s.pipes[m].task == id
  }

  /** A step of one of the two. */
  lemma MovedBoth(s: System, r: System, i: nat, pc: Pc, status: TaskStatus, k: nat, m: nat, id: string)
    requires Both(s, k, m, id) && Moved(s, r, i, pc, status) && (i == k || i == m) && !pc.Start?
    ensures Both(r, k, m, id) && r.pipes[i].pc == pc
    ensures forall n :: 0 <= n < |s.pipes| && n != i ==> r.pipes[n] == s.pipes[n]
  {
    MovedCanRun(s, r, i, pc, status, k);
  }

  /** Everybody who wants to start does; the task's dependencies are left alone. */
  lemma StartsKeepReady(s: System, r: System, k: nat)
    requires Taken(s, r) && CanRun(s, k) && Undisturbed(s, s.pipes[k].task)
    ensures CanRun(r, k)
  {
    var id := s.pipes[k].task;
    assert TakenPipe(s.Store(), s.pipes[k], r.pipes[k]) && TakenTask(s, r.Store(), id);
    var deps := s.Tasks()[id].spec.dependencies;
    forall d | 0 <= d < |deps|
      ensures r.Store().Settled(deps[d])
    {
      assert deps[d] in deps && s.Store().Settled(deps[d]) && TakenTask(s, r.Store(), deps[d]);
    }
  }

  lemma StartsTakeBoth(s: System, r: System, k: nat, m: nat, id: string)
    requires Doubled(s, k, m, id) && Undisturbed(s, id) && Taken(s, r) && NoneAtStart(r)
    ensures Both(r, k, m, id) && r.pipes[m].pc.Assigned? && (r.pipes[k].pc.Assigned? || r.pipes[k].pc.Waiting?)
  {
    StartsKeepReady(s, r, k);
    assert TakenPipe(s.Store(), s.pipes[k], r.pipes[k]) && TakenPipe(s.Store(), s.pipes[m], r.pipes[m]);
  }

  lemma LastGetsWorker(settings: Settings, from: System, s: System, k: nat, m: nat, id: string) returns (r: System)
    requires Reaches(settings, true, from, s) && Both(s, k, m, id) && s.pipes[k].pc.Waiting? && s.pipes[m].pc.Assigned?
    ensures Reaches(settings, true, from, r) && Both(r, k, m, id) && r.pipes[k].pc.Assigned? && r.pipes[m].pc.Assigned?
  {
    r := AssignMoves(settings, s, k);
    ReachesNext(settings, true, from, s, Assign(k), r);
    MovedBoth(s, r, k, r.pipes[k].pc, ASSIGNED, k, m, id);
  }

  lemma BothGetWorkers(settings: Settings, from: System, s: System, k: nat, m: nat, id: string) returns (r: System)
    requires Reaches(settings, true, from, s) && Doubled(s, k, m, id) && Undisturbed(s, id)
    ensures Reaches(settings, true, from, r) && Both(r, k, m, id) && r.pipes[k].pc.Assigned? && r.pipes[m].pc.Assigned?
  {
    r := AllStart(settings, from, s);
    StartsTakeBoth(s, r, k, m, id);
    if r.pipes[k].pc.Waiting? {
      r := LastGetsWorker(settings, from, r, k, m, id);
    }
  }

  lemma BothRun(settings: Settings, from: System, s: System, k: nat, m: nat, id: string) returns (r: System)
    requires Reaches(settings, true, from, s) && Both(s, k, m, id) && s.pipes[k].pc.Assigned? && s.pipes[m].pc.Assigned?
    ensures Reaches(settings, true, from, r) && Both(r, k, m, id) && r.pipes[k].pc.Running? && r.pipes[m].pc.Running?
  {
    var s1 := BeginsNext(settings, true, from, s, k);
    MovedBoth(s, s1, k, s1.pipes[k].pc, RUNNING, k, m, id);
    r := BeginsNext(settings, true, from, s1, m);
    MovedBoth(s1, r, m, r.pipes[m].pc, RUNNING, k, m, id);
  }

  /** The slower one finishes a task that is VALIDATED by now. */
  lemma SlowerFinishes(settings: Settings, s: System, k: nat, m: nat, id: string) returns (r: System)
    requires Both(s, k, m, id) && s.pipes[m].pc.Running? && s.Store().HasStatus(id, VALIDATED)
    ensures Overwrites(settings, true, s, r, id, COMPLETED)
  {
    r := FinishMoves(settings, s, m);
    assert InTurn(s, Finish(m, GoodResult(id, s.pipes[m].pc.worker)));
  }

  /** Both work on the task; the faster one gets it validated, and then the slower one completes it. */
  lemma OvertakenCompletes(settings: Settings, from: System, s: System, k: nat, m: nat, id: string)
    returns (t: System, u: System)
    requires Reaches(settings, true, from, s) && Both(s, k, m, id) && s.pipes[k].pc.Running? && s.pipes[m].pc.Running?
    ensures Reaches(settings, true, from, t) && Overwrites(settings, true, t, u, id, COMPLETED)
  {
    t := DriveHome(settings, true, from, s, k);
    MovedBoth(s, t, k, Judged, VALIDATED, k, m, id);
    u := SlowerFinishes(settings, t, k, m, id);
  }

  lemma DoubledInTurn(settings: Settings, s: System, i: nat, k: nat) returns (t: System, u: System)
    requires LifecycleInv(s) && WillDouble(s, i, k) && Undisturbed(s, s.pipes[k].task)
    ensures Reaches(settings, true, s, t) && Overwrites(settings, true, t, u, s.pipes[k].task, COMPLETED)
  {
    var r, m := WakeDoubles(settings, s, i, k);
    ReachesSelf(settings, true, s);
    ReachesNext(settings, true, s, s, Wake(i), r);
    var both := BothGetWorkers(settings, s, r, k, m, s.pipes[k].task);
    var running := BothRun(settings, s, both, k, m, s.pipes[k].task);
    t, u := OvertakenCompletes(settings, s, running, k, m, s.pipes[k].task);
  }

  lemma DoubledLate(settings: Settings, s: System, i: nat, k: nat) returns (t: System, u: System)
    requires LifecycleInv(s) && WillDouble(s, i, k)
    ensures Reaches(settings, false, s, t) && Overwrites(settings, false, t, u, s.pipes[k].task, ASSIGNED)
  {
    var r, m := WakeDoubles(settings, s, i, k);
    ReachesSelf(settings, false, s);
    ReachesNext(settings, false, s, s, Wake(i), r);
    t, u := OvertakenReassigns(settings, s, r, k, m, s.pipes[k].task);
  }

  lemma EndsWithBoth(
    settings: Settings, ordered: bool, run: seq<System>, t: System, u: System, id: string, after: TaskStatus)
    requires run != [] && run[|run| - 1] == t && Overwrites(settings, ordered, t, u, id, after)
    ensures EndsOverwritten(run + [u], id, after)
  {
  }

  lemma LedOneFurther(
    settings: Settings, ordered: bool, pool: Store, broker: Broker<Message>, plan: seq<TaskSpec>, run: seq<System>,
    most: seq<System>, t: System, u: System)
    requires LeadsOn(settings, ordered, pool, broker, plan, run, most, t) && Step(settings, ordered, t, u)
    ensures LeadsOn(settings, ordered, pool, broker, plan, run, most + [u], u)
  {
    var whole, last := most + [u], |run| - 1;
    RunExtends(settings, pool, broker, plan, most, u);
    forall k | last <= k < |whole| - 1
      ensures Step(settings, ordered, whole[k], whole[k + 1])
    {
      if k < |most| - 1 {
        assert Step(settings, ordered, most[k], most[k + 1]);
      }
    }
  }

  /** The run goes on from `run`, in turn if `ordered`, and ends with the task taken out of VALIDATED. */
  ghost predicate GoesOnToOverwrite(
    settings: Settings, ordered: bool, pool: Store, broker: Broker<Message>, plan: seq<TaskSpec>, run: seq<System>,
    whole: seq<System>, id: string, after: TaskStatus)
  {
    && IsRun(settings, pool, broker, plan, whole) && 0 < |run| && run < whole
    && GoesOn(settings, ordered, whole, |run| - 1) && EndsOverwritten(whole, id, after)
  }

  lemma OverwrittenRun(
    settings: Settings, ordered: bool, pool: Store, broker: Broker<Message>, plan: seq<TaskSpec>, run: seq<System>,
    t: System, u: System, id: string, after: TaskStatus)
    returns (whole: seq<System>)
    requires IsRun(settings, pool, broker, plan, run) && Reaches(settings, ordered, run[|run| - 1], t)
    requires Overwrites(settings, ordered, t, u, id, after)
    ensures GoesOnToOverwrite(settings, ordered, pool, broker, plan, run, whole, id, after)
  {
    var most := ReachedByRun(settings, ordered, pool, broker, plan, run, t);
    LedOneFurther(settings, ordered, pool, broker, plan, run, most, t, u);
    EndsWithBoth(settings, ordered, most, t, u, id, after);
    whole := most + [u];
  }

  /**
   In any reachable state in which some coroutine is about to wake up and another
   is on its way to a QUEUED task that is ready and has a worker, the run can go
   on so that this task is VALIDATED and becomes ASSIGNED again.
   */
  lemma TakenUpTwice(
    settings: Settings, pool: Store, broker: Broker<Message>, plan: seq<TaskSpec>, run: seq<System>, i: nat, k: nat)
    returns (whole: seq<System>)
    requires IsRun(settings, pool, broker, plan, run) && WillDouble(run[|run| - 1], i, k)
    ensures GoesOnToOverwrite(settings, false, pool, broker, plan, run, whole, run[|run| - 1].pipes[k].task, ASSIGNED)
  {
    var id := run[|run| - 1].pipes[k].task;
    RunKeepsLifecycle(settings, pool, broker, plan, run, |run| - 1);
    var t, u := DoubledLate(settings, run[|run| - 1], i, k);
    whole := OverwrittenRun(settings, false, pool, broker, plan, run, t, u, id, ASSIGNED);
  }

  /**
   It can even go on with everybody in turn, unless a dependency of the task is
   about to be taken up again: both coroutines get a worker, the faster one has
   the task VALIDATED, and the slower one makes it COMPLETED.
   */
  lemma TakenUpTwiceInTurn(
    settings: Settings, pool: Store, broker: Broker<Message>, plan: seq<TaskSpec>, run: seq<System>, i: nat, k: nat)
    returns (whole: seq<System>)
    requires IsRun(settings, pool, broker, plan, run) && WillDouble(run[|run| - 1], i, k)
    requires Undisturbed(run[|run| - 1], run[|run| - 1].pipes[k].task)
    ensures GoesOnToOverwrite(settings, true, pool, broker, plan, run, whole, run[|run| - 1].pipes[k].task, COMPLETED)
  {
    var id := run[|run| - 1].pipes[k].task;
    RunKeepsLifecycle(settings, pool, broker, plan, run, |run| - 1);
    var t, u := DoubledInTurn(settings, run[|run| - 1], i, k);
    whole := OverwrittenRun(settings, true, pool, broker, plan, run, t, u, id, COMPLETED);
  }

  // ---- Exactly when ----

  /** Some coroutine is about to wake up while another is on its way to a QUEUED task that can run. */
  ghost predicate Invites(s: System) {
    (exists i :: 0 <= i < |s.pipes| && s.pipes[i].pc.Judged?) && !QueuedAreFree(s)
  }

  ghost predicate LeftAt(run: seq<System>, k: nat, id: string) {
    k + 1 < |run| && run[k].Store().HasStatus(id, VALIDATED) && !run[k + 1].Store().HasStatus(id, VALIDATED)
  }

  /** Somewhere along the run a task leaves VALIDATED. */
  ghost predicate LeavesValidated(run: seq<System>) {
    exists k, id :: 0 <= k < |run| - 1 && LeftAt(run, k, id)
  }

  lemma PrefixIsRun(
    settings: Settings, pool: Store, broker: Broker<Message>, plan: seq<TaskSpec>, run: seq<System>, n: nat)
    requires IsRun(settings, pool, broker, plan, run) && 0 < n <= |run|
    ensures IsRun(settings, pool, broker, plan, run[..n])
  {
    forall j | 0 <= j < n - 1
      ensures Next(settings, run[..n][j], run[..n][j + 1])
    {
      assert Next(settings, run[j], run[j + 1]);
    }
  }

  /** The last state before coroutines first overlap. */
  lemma {:induction false} LastApart(run: seq<System>, n: nat) returns (j: nat)
    requires 0 < n < |run| && !NoOverlap(run[n]) && NoOverlap(run[0])
    ensures j < n && !NoOverlap(run[j + 1]) && forall m :: 0 <= m <= j ==> NoOverlap(run[m])
  {
    j := n - 1;
    if m :| 0 <= m < n && !NoOverlap(run[m]) {
      j := LastApart(run, m);
    }
  }

  lemma OverlapWasInvited(settings: Settings, s: System, s': System)
    requires LifecycleInv(s) && NoOverlap(s) && Next(settings, s, s') && !NoOverlap(s')
    ensures Invites(s)
  {
    var a :| StepBy(settings, s, a, s');
    OnlyWakesMeet(settings, s, a);
  }

  lemma InvitedAt(
    settings: Settings, pool: Store, broker: Broker<Message>, plan: seq<TaskSpec>, run: seq<System>, j: nat)
    requires IsRun(settings, pool, broker, plan, run) && j + 1 < |run| && NoOverlap(run[j]) && !NoOverlap(run[j + 1])
    ensures Invites(run[j])
  {
    RunKeepsLifecycle(settings, pool, broker, plan, run, j);
    assert Next(settings, run[j], run[j + 1]);
    OverlapWasInvited(settings, run[j], run[j + 1]);
  }

  lemma ApartPrefix(
    settings: Settings, pool: Store, broker: Broker<Message>, plan: seq<TaskSpec>, run: seq<System>, n: nat)
    requires IsRun(settings, pool, broker, plan, run) && 0 < n <= |run|
    requires forall m :: 0 <= m < n ==> NoOverlap(run[m])
    ensures IsExclusiveRun(settings, pool, broker, plan, run[..n])
  {
    PrefixIsRun(settings, pool, broker, plan, run, n);
    var part := run[..n];
    assert forall m :: 0 <= m < |part| ==> part[m] == run[m];
  }

  lemma LeftNeedsOverlap(
    settings: Settings, pool: Store, broker: Broker<Message>, plan: seq<TaskSpec>, run: seq<System>, k: nat, id: string)
    returns (n: nat)
    requires IsRun(settings, pool, broker, plan, run) && LeftAt(run, k, id)
    ensures n <= k + 1 && !NoOverlap(run[n])
  {
    if n' :| 0 <= n' < k + 2 && !NoOverlap(run[n']) {
      n := n';
    } else {
      ApartPrefix(settings, pool, broker, plan, run, k + 2);
      ValidatedForGood(settings, pool, broker, plan, run[..k + 2], k, k + 1, id);
      assert false;
    }
  }

  /**
   Whenever VALIDATED is left, there is an earlier state, with no overlap up to
   there and with overlap after the next step, in which a coroutine is about to
   wake up while another is on its way to a QUEUED task that can run.
   */
  lemma OverwritingNeedsOverlap(
    settings: Settings, pool: Store, broker: Broker<Message>, plan: seq<TaskSpec>, run: seq<System>, k: nat, id: string)
    returns (j: nat)
    requires IsRun(settings, pool, broker, plan, run) && LeftAt(run, k, id)
    ensures j <= k && IsExclusiveRun(settings, pool, broker, plan, run[..j + 1])
    ensures Invites(run[j]) && !NoOverlap(run[j + 1])
  {
    InitiallyApart(run[0], pool, broker, plan);
    var n := LeftNeedsOverlap(settings, pool, broker, plan, run, k, id);
    j := LastApart(run, n);
    InvitedAt(settings, pool, broker, plan, run, j);
    ApartPrefix(settings, pool, broker, plan, run, j + 1);
  }

  lemma ValidatedIsReady(s: System, id: string)
    requires InStep(s) && DepsValidated(s, id)
    ensures s.Store().DependenciesMet(s.Tasks()[id].spec) && Undisturbed(s, id)
  {
    var deps := s.Tasks()[id].spec.dependencies;
    assert forall d :: 0 <= d < |deps| ==> deps[d] in deps && s.Store().HasStatus(deps[d], VALIDATED);
    forall d, k | d in deps && 0 <= k < |s.pipes|
      ensures !IsAt(s.pipes[k], d, AtStart)
    {
      assert s.Store().HasStatus(d, VALIDATED) && Matches(s.pipes[k].pc, s.Tasks()[s.pipes[k].task].status);
    }
  }

  /** Without overlap, whatever is on its way is ready, and no dependency of it is taken up again. */
  lemma OnItsWayIsReady(
    settings: Settings, pool: Store, broker: Broker<Message>, plan: seq<TaskSpec>, run: seq<System>, k: nat)
    requires IsExclusiveRun(settings, pool, broker, plan, run) && OnItsWay(run[|run| - 1], k)
    ensures var s := run[|run| - 1];
            && s.Store().DependenciesMet(s.Tasks()[s.pipes[k].task].spec) && Undisturbed(s, s.pipes[k].task)
  {
    var s := run[|run| - 1];
    RunKeepsExclusive(settings, pool, broker, plan, run, |run| - 1);
    RunKeepsFresh(settings, pool, broker, plan, run, |run| - 1);
    PendingNotTouched(s, k);
    assert DepsValidated(s, s.pipes[k].task);
    ValidatedIsReady(s, s.pipes[k].task);
  }

  /** `whole` goes on from `run`, in turn if `ordered`, free of overlap, up to a state that invites one. */
  ghost predicate GoesOnToInvite(
    settings: Settings, ordered: bool, pool: Store, broker: Broker<Message>, plan: seq<TaskSpec>, run: seq<System>,
    whole: seq<System>)
  {
    && IsExclusiveRun(settings, pool, broker, plan, whole) && 0 < |run| && run <= whole
    && GoesOn(settings, ordered, whole, |run| - 1) && Invites(whole[|whole| - 1])
  }

  /** `whole` goes on from `run`, in turn if `ordered`, and some task leaves VALIDATED on the way. */
  ghost predicate GoesOnToLeave(
    settings: Settings, ordered: bool, pool: Store, broker: Broker<Message>, plan: seq<TaskSpec>, run: seq<System>,
    whole: seq<System>)
  {
    && IsRun(settings, pool, broker, plan, whole) && 0 < |run| && run <= whole
    && GoesOn(settings, ordered, whole, |run| - 1) && LeavesValidated(whole)
  }

  lemma InvitedGoesOn(
    settings: Settings, pool: Store, broker: Broker<Message>, plan: seq<TaskSpec>, run: seq<System>)
    returns (whole: seq<System>, id: string)
    requires IsExclusiveRun(settings, pool, broker, plan, run) && Invites(run[|run| - 1])
    ensures GoesOnToOverwrite(settings, true, pool, broker, plan, run, whole, id, COMPLETED)
  {
    var s := run[|run| - 1];
    var i :| 0 <= i < |s.pipes| && s.pipes[i].pc.Judged?;
    var k :| 0 <= k < |s.pipes| && OnItsWay(s, k);
    OnItsWayIsReady(settings, pool, broker, plan, run, k);
    whole := TakenUpTwiceInTurn(settings, pool, broker, plan, run, i, k);
    id := s.pipes[k].task;
  }

  /** First on to `part`, then on to `whole`. */
  lemma GoesOnThrough(settings: Settings, ordered: bool, part: seq<System>, whole: seq<System>, start: nat)
    requires start < |part| && part <= whole
    requires GoesOn(settings, ordered, part, start) && GoesOn(settings, true, whole, |part| - 1)
    ensures GoesOn(settings, ordered, whole, start)
  {
    forall k | start <= k < |whole| - 1
      ensures Step(settings, ordered, whole[k], whole[k + 1])
    {
      if k < |part| - 1 {
        assert Step(settings, ordered, part[k], part[k + 1]);
      } else {
        assert Step(settings, true, whole[k], whole[k + 1]);
      }
    }
  }

  lemma InvitedMeansLeft(
    settings: Settings, ordered: bool, pool: Store, broker: Broker<Message>, plan: seq<TaskSpec>, run: seq<System>,
    part: seq<System>)
    returns (whole: seq<System>)
    requires GoesOnToInvite(settings, ordered, pool, broker, plan, run, part)
    ensures GoesOnToLeave(settings, ordered, pool, broker, plan, run, whole)
  {
    var id;
    whole, id := InvitedGoesOn(settings, pool, broker, plan, part);
    GoesOnThrough(settings, ordered, part, whole, |run| - 1);
    assert LeftAt(whole, |whole| - 2, id);
  }

  lemma ApartUntil(run: seq<System>, whole: seq<System>, j: nat)
    requires run <= whole && j + 1 < |whole| && !NoOverlap(whole[j + 1])
    requires forall k :: 0 <= k < |run| ==> NoOverlap(run[k])
    ensures run <= whole[..j + 1]
  {
    assert forall k :: 0 <= k < |run| ==> run[k] == whole[k];
  }

  lemma GoesOnPart(settings: Settings, ordered: bool, whole: seq<System>, start: nat, n: nat)
    requires n <= |whole| && GoesOn(settings, ordered, whole, start)
    ensures GoesOn(settings, ordered, whole[..n], start)
  {
    forall k | start <= k < n - 1
      ensures Step(settings, ordered, whole[..n][k], whole[..n][k + 1])
    {
      assert Step(settings, ordered, whole[k], whole[k + 1]);
    }
  }

  lemma InvitedPart(
    settings: Settings, ordered: bool, pool: Store, broker: Broker<Message>, plan: seq<TaskSpec>, run: seq<System>,
    whole: seq<System>, j: nat)
    requires IsExclusiveRun(settings, pool, broker, plan, run) && run <= whole && j + 1 < |whole|
    requires GoesOn(settings, ordered, whole, |run| - 1)
    requires IsExclusiveRun(settings, pool, broker, plan, whole[..j + 1])
    requires Invites(whole[j]) && !NoOverlap(whole[j + 1])
    ensures GoesOnToInvite(settings, ordered, pool, broker, plan, run, whole[..j + 1])
  {
    ApartUntil(run, whole, j);
    GoesOnPart(settings, ordered, whole, |run| - 1, j + 1);
    assert whole[..j + 1][j] == whole[j];
  }

  lemma LeftMeansInvited(
    settings: Settings, ordered: bool, pool: Store, broker: Broker<Message>, plan: seq<TaskSpec>, run: seq<System>,
    whole: seq<System>)
    returns (part: seq<System>)
    requires IsExclusiveRun(settings, pool, broker, plan, run)
    requires GoesOnToLeave(settings, ordered, pool, broker, plan, run, whole)
    ensures GoesOnToInvite(settings, ordered, pool, broker, plan, run, part)
  {
    var k, id :| 0 <= k < |whole| - 1 && LeftAt(whole, k, id);
    var j := OverwritingNeedsOverlap(settings, pool, broker, plan, whole, k, id);
    part := whole[..j + 1];
    InvitedPart(settings, ordered, pool, broker, plan, run, whole, j);
  }

  /**
   The exact condition: after a run without overlap, VALIDATED can be left in a
   continuation if and only if a continuation without overlap leads to a state in
   which a coroutine is about to wake up while another is on its way to a QUEUED
   task that can run. It is the same condition whether coroutines move as they
   like or only in turn.
   */
  lemma OverwritableIff(
    settings: Settings, ordered: bool, pool: Store, broker: Broker<Message>, plan: seq<TaskSpec>, run: seq<System>)
    requires IsExclusiveRun(settings, pool, broker, plan, run)
    ensures (exists whole :: GoesOnToLeave(settings, ordered, pool, broker, plan, run, whole)) <==>
            (exists part :: GoesOnToInvite(settings, ordered, pool, broker, plan, run, part))
  {
    if whole :| GoesOnToLeave(settings, ordered, pool, broker, plan, run, whole) {
      var part := LeftMeansInvited(settings, ordered, pool, broker, plan, run, whole);
    }
    if part :| GoesOnToInvite(settings, ordered, pool, broker, plan, run, part) {
      var whole := InvitedMeansLeft(settings, ordered, pool, broker, plan, run, part);
    }
  }
}
