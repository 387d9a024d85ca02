/**
 Whose turn it is, and how to take coroutines where they are wanted: one from its
 start to the critic's answer while everything else stands still, or all new ones
 to their workers.
 */
module Driving {
  import opened Collections
  import opened Models
  import opened TaskStores
  import opened MemoryQueues
  import opened LoadBalancers
  import opened Schedulers
  import opened Critics
  import opened Pipelines
  import opened Lifecycle
  import opened Exclusive

  // ---- Turns ----

  ghost predicate NoneAtStart(s: System) {
    forall k :: 0 <= k < |s.pipes| ==> !s.pipes[k].pc.Start?
  }

  /**
   What the event loop does with new coroutines: they start in the order of their
   creation, and before anybody wakes from a sleep, be it a worker's, the one
   before a retry, or the one before the second attempt to find a worker.
   */
  ghost predicate InTurn(s: System, a: Action) {
    match a
    case Assign(i) =>
      if i < |s.pipes| && s.pipes[i].pc.Start?
      then forall k :: 0 <= k < i ==> !s.pipes[k].pc.Start?
      else NoneAtStart(s)
    case Finish(_, _) => NoneAtStart(s)
    case Respawn(_) => NoneAtStart(s)
    case _ => true
  }

  /** A step, of any coroutine or, if `ordered`, of one whose turn it is. */
  ghost predicate Step(settings: Settings, ordered: bool, s: System, s': System) {
    exists a :: StepBy(settings, s, a, s') && (ordered ==> InTurn(s, a))
  }

  /** From position `start` on, all steps of the sequence are taken, and in turn if `ordered`. */
  ghost predicate GoesOn(settings: Settings, ordered: bool, run: seq<System>, start: nat) {
    forall k :: start <= k < |run| - 1 ==> Step(settings, ordered, run[k], run[k + 1])
  }

  ghost predicate IsPathTo(settings: Settings, ordered: bool, path: seq<System>, s: System, t: System) {
    |path| > 0 && path[0] == s && path[|path| - 1] == t && GoesOn(settings, ordered, path, 0)
  }

  /** Some finite sequence of steps, in turn if `ordered`, leads from `s` to `t`. */
  ghost predicate Reaches(settings: Settings, ordered: bool, s: System, t: System) {
    exists path :: IsPathTo(settings, ordered, path, s, t)
  }

  lemma StepAppended(settings: Settings, ordered: bool, path: seq<System>, u: System)
    requires |path| > 0 && GoesOn(settings, ordered, path, 0) && Step(settings, ordered, path[|path| - 1], u)
    ensures GoesOn(settings, ordered, path + [u], 0)
  {
    var longer := path + [u];
    forall k | 0 <= k < |longer| - 1
      ensures Step(settings, ordered, longer[k], longer[k + 1])
    {
      if k < |path| - 1 {
        assert Step(settings, ordered, path[k], path[k + 1]);
      }
    }
  }

  lemma ReachesNext(settings: Settings, ordered: bool, s: System, t: System, a: Action, u: System)
    requires Reaches(settings, ordered, s, t) && StepBy(settings, t, a, u) && (ordered ==> InTurn(t, a))
    ensures Reaches(settings, ordered, s, u)
  {
    var path :| IsPathTo(settings, ordered, path, s, t);
    assert Step(settings, ordered, t, u);
    StepAppended(settings, ordered, path, u);
    assert IsPathTo(settings, ordered, path + [u], s, u);
  }

  lemma ReachesSelf(settings: Settings, ordered: bool, s: System)
    ensures Reaches(settings, ordered, s, s)
  {
    assert IsPathTo(settings, ordered, [s], s, s);
  }

  // ---- One coroutine, from its start to the critic's answer ----

  /** Coroutine `i` moves to `pc` and its task to `status`; nothing else moves. */
  ghost predicate Moved(s: System, r: System, i: nat, pc: Pc, status: TaskStatus) {
    && i < |s.pipes| && r.pipes == s.pipes[i := Pipe(s.pipes[i].task, pc)]
    && r.desk == s.desk.(store := r.Store())
    && Shape(r) && Changes(s.Store(), r.Store(), s.pipes[i].task, status)
  }

  lemma MovedTwice(s: System, r: System, t: System, i: nat, a: Pc, b: Pc, x: TaskStatus, y: TaskStatus)
    requires Moved(s, r, i, a, x) && Moved(r, t, i, b, y)
    ensures Moved(s, t, i, b, y)
  {
  }

  lemma AdvanceMoves(s: System, i: nat, pc: Pc, store: Store, status: TaskStatus, event: Event)
    requires Shape(s) && i < |s.pipes| && Changes(s.Store(), store, s.pipes[i].task, status)
    ensures Moved(s, Advance(s, i, pc, store, event), i, pc, status)
  {
    AdvanceKeepsShape(s, i, pc, store, status, event);
  }

  /** Where there is a worker, the row of the transition table is the one that takes it. */
  lemma RunnableIsAssigned(s: System, i: nat, pc: Pc, status: TaskStatus, event: Event)
    requires i < |s.pipes| && (s.pipes[i].pc.Start? || s.pipes[i].pc.Waiting?)
    requires Runnable(s.Store(), s.pipes[i].task) && Allowed(s, i, pc, status, event)
    ensures pc.Assigned? && status == ASSIGNED
  {
  }

  lemma AssignStepMoves(s: System, i: nat)
    requires Shape(s) && i < |s.pipes| && (s.pipes[i].pc.Start? || s.pipes[i].pc.Waiting?)
    requires Runnable(s.Store(), s.pipes[i].task)
    ensures var r := AssignStep(s, i);
            |r.pipes| == |s.pipes| && r.pipes[i].pc.Assigned? && Moved(s, r, i, r.pipes[i].pc, ASSIGNED)
  {
    var pc, store, status, event := AssignShape(s, i);
    RunnableIsAssigned(s, i, pc, status, event);
    AdvanceMoves(s, i, pc, store, status, event);
  }

  lemma AssignMoves(settings: Settings, s: System, i: nat) returns (r: System)
    requires Shape(s) && i < |s.pipes| && (s.pipes[i].pc.Start? || s.pipes[i].pc.Waiting?)
    requires Runnable(s.Store(), s.pipes[i].task)
    ensures StepBy(settings, s, Assign(i), r) && |r.pipes| == |s.pipes| && r.pipes[i].pc.Assigned?
    ensures Moved(s, r, i, r.pipes[i].pc, ASSIGNED)
  {
    r := AssignStep(s, i);
    assert StepBy(settings, s, Assign(i), r);
    AssignStepMoves(s, i);
  }

  lemma BeginMoves(settings: Settings, s: System, i: nat) returns (r: System)
    requires Shape(s) && i < |s.pipes| && s.pipes[i].pc.Assigned?
    ensures StepBy(settings, s, Begin(i), r) && Moved(s, r, i, Running(s.pipes[i].pc.worker), RUNNING)
  {
    r := BeginStep(s, i);
    var pc, store, status, event := BeginShape(s, i);
    AdvanceMoves(s, i, pc, store, status, event);
  }

  function GoodResult(id: string, worker: string): TaskResult {
    TaskResult(id, worker, false, 100, Some(Dictionary({"output"})), None)
  }

  lemma FinishMoves(settings: Settings, s: System, i: nat) returns (r: System)
    requires Shape(s) && i < |s.pipes| && s.pipes[i].pc.Running?
    ensures StepBy(settings, s, Finish(i, GoodResult(s.pipes[i].task, s.pipes[i].pc.worker)), r)
    ensures Moved(s, r, i, Completed(GoodResult(s.pipes[i].task, s.pipes[i].pc.worker)), COMPLETED)
  {
    var result := GoodResult(s.pipes[i].task, s.pipes[i].pc.worker);
    r := FinishStep(s, i, result);
    var pc, store, status, event := FinishShape(s, i, result);
    AdvanceKeepsShape(s, i, pc, store, status, event);
  }

  lemma JudgeMoves(settings: Settings, s: System, i: nat, worker: string) returns (r: System)
    requires Shape(s) && i < |s.pipes| && s.pipes[i].pc == Completed(GoodResult(s.pipes[i].task, worker))
    requires s.Store().DependenciesMet(s.Tasks()[s.pipes[i].task].spec)
    ensures StepBy(settings, s, Judge(i, 3), r) && Moved(s, r, i, Judged, VALIDATED)
  {
    r := JudgeStep(s, i, 3);
    ScoreNeverDecides(s.Store(), s.Tasks()[s.pipes[i].task].spec, s.pipes[i].pc.result, 3);
    var pc, store, status, event := JudgeShape(s, i, 3);
    AdvanceKeepsShape(s, i, pc, store, status, event);
  }

  /** A coroutine's progress leaves everybody's workers available. */
  lemma MovedStaffed(s: System, r: System, i: nat, pc: Pc, status: TaskStatus)
    requires Moved(s, r, i, pc, status) && Shape(s)
    ensures forall spec :: Staffed(s.Store(), spec) ==> Staffed(r.Store(), spec)
    ensures forall id :: Runnable(s.Store(), id) ==> Runnable(r.Store(), id)
  {
    forall spec | Staffed(s.Store(), spec)
      ensures Staffed(r.Store(), spec)
    {
      var t := WorkerTypeFor(spec.partition);
      var w :| w in s.Store().workerOrder && s.Store().Available(w, t);
      assert r.Store().Available(w, t);
    }
  }

  ghost predicate CanRun(s: System, i: nat) {
    && Shape(s) && i < |s.pipes| && Runnable(s.Store(), s.pipes[i].task)
    && s.Store().DependenciesMet(s.Tasks()[s.pipes[i].task].spec)
    && s.pipes[i].task !in s.Tasks()[s.pipes[i].task].spec.dependencies
  }

  /** A task's own progress, by whichever of its coroutines, keeps it ready. */
  lemma MovedCanRun(s: System, r: System, i: nat, pc: Pc, status: TaskStatus, k: nat)
    requires CanRun(s, k) && Moved(s, r, i, pc, status) && s.pipes[i].task == s.pipes[k].task
    ensures CanRun(r, k)
  {
    var deps := s.Tasks()[s.pipes[k].task].spec.dependencies;
    assert forall d :: 0 <= d < |deps| ==> deps[d] in deps && s.Store().Settled(deps[d]);
    MovedStaffed(s, r, i, pc, status);
  }

  lemma BeginsNext(settings: Settings, ordered: bool, from: System, s: System, i: nat) returns (r: System)
    requires Reaches(settings, ordered, from, s) && Shape(s) && i < |s.pipes| && s.pipes[i].pc.Assigned?
    ensures Reaches(settings, ordered, from, r) && Moved(s, r, i, Running(s.pipes[i].pc.worker), RUNNING)
  {
    r := BeginMoves(settings, s, i);
    ReachesNext(settings, ordered, from, s, Begin(i), r);
  }

  /** A running task whose dependencies are met can be finished and validated. */
  lemma DriveHome(settings: Settings, ordered: bool, from: System, s: System, i: nat) returns (r: System)
    requires CanRun(s, i) && s.pipes[i].pc.Running? && Reaches(settings, ordered, from, s)
    requires ordered ==> NoneAtStart(s)
    ensures Reaches(settings, ordered, from, r) && Moved(s, r, i, Judged, VALIDATED)
  {
    var w := s.pipes[i].pc.worker;
    var s1 := FinishMoves(settings, s, i);
    ReachesNext(settings, ordered, from, s, Finish(i, GoodResult(s.pipes[i].task, w)), s1);
    MovedCanRun(s, s1, i, s1.pipes[i].pc, COMPLETED, i);
    r := JudgeMoves(settings, s1, i, w);
    ReachesNext(settings, ordered, from, s1, Judge(i, 3), r);
    MovedTwice(s, s1, r, i, s1.pipes[i].pc, Judged, COMPLETED, VALIDATED);
  }

  /** An assigned, ready task can be taken all the way to VALIDATED while everything else stands still. */
  lemma DriveOn(settings: Settings, ordered: bool, from: System, s: System, i: nat) returns (r: System)
    requires CanRun(s, i) && s.pipes[i].pc.Assigned? && Reaches(settings, ordered, from, s)
    requires ordered ==> NoneAtStart(s)
    ensures Reaches(settings, ordered, from, r) && Moved(s, r, i, Judged, VALIDATED)
  {
    var s1 := BeginsNext(settings, ordered, from, s, i);
    MovedCanRun(s, s1, i, s1.pipes[i].pc, RUNNING, i);
    r := DriveHome(settings, ordered, from, s1, i);
    MovedTwice(s, s1, r, i, s1.pipes[i].pc, Judged, RUNNING, VALIDATED);
  }

  /** So can a staffed one, if the order of turns does not matter. */
  lemma Drive(settings: Settings, from: System, s: System, i: nat) returns (r: System)
    requires CanRun(s, i) && (s.pipes[i].pc.Start? || s.pipes[i].pc.Waiting?) && Reaches(settings, false, from, s)
    ensures Reaches(settings, false, from, r) && Moved(s, r, i, Judged, VALIDATED)
  {
    var s1 := AssignMoves(settings, s, i);
    ReachesNext(settings, false, from, s, Assign(i), s1);
    MovedCanRun(s, s1, i, s1.pipes[i].pc, ASSIGNED, i);
    r := DriveOn(settings, false, from, s1, i);
    MovedTwice(s, s1, r, i, s1.pipes[i].pc, Judged, ASSIGNED, VALIDATED);
  }

  // ---- All new coroutines start ----

  /** What becomes of a coroutine when all that are at their start get going. */
  ghost predicate TakenPipe(s: Store, p: Pipe, q: Pipe) {
    && q.task == p.task
    && if !p.pc.Start? then q.pc == p.pc
       else if Runnable(s, p.task) then q.pc.Assigned?
       else q.pc == Waiting
  }

  /** A task with a coroutine at its start and a worker becomes ASSIGNED; all other records stay. */
  ghost predicate TakenTask(s: System, r: Store, id: string)
    requires id in s.Tasks() && id in r.tasks
  {
    && r.tasks[id].spec == s.Tasks()[id].spec
    && if HasPipe(s.pipes, id, AtStart) && Runnable(s.Store(), id)
       then r.tasks[id].status == ASSIGNED
       else r.tasks[id] == s.Tasks()[id]
  }

  ghost predicate Taken(s: System, r: System) {
    && Shape(r) && r.desk == s.desk.(store := r.Store()) && |r.pipes| == |s.pipes|
    && r.Store().taskOrder == s.Store().taskOrder && r.Tasks().Keys == s.Tasks().Keys
    && (forall k :: 0 <= k < |s.pipes| ==> TakenPipe(s.Store(), s.pipes[k], r.pipes[k]))
    && (forall id :: id in s.Tasks() ==> TakenTask(s, r.Store(), id))
    && (forall id :: Runnable(s.Store(), id) <==> Runnable(r.Store(), id))
  }

  lemma TakenSelf(s: System)
    requires Shape(s) && NoneAtStart(s)
    ensures Taken(s, s)
  {
    assert forall k, id :: 0 <= k < |s.pipes| ==> !IsAt(s.pipes[k], id, AtStart);
  }

  /** The same for coroutine `j` alone. */
  ghost predicate TookOne(s: System, r: System, j: nat) {
    && Shape(r) && r.desk == s.desk.(store := r.Store()) && |r.pipes| == |s.pipes| && j < |s.pipes|
    && r.Store().taskOrder == s.Store().taskOrder && r.Tasks().Keys == s.Tasks().Keys
    && r.pipes == s.pipes[j := r.pipes[j]] && TakenPipe(s.Store(), s.pipes[j], r.pipes[j])
    && (forall id :: id in s.Tasks() ==>
          && r.Tasks()[id].spec == s.Tasks()[id].spec
          && if id == s.pipes[j].task && Runnable(s.Store(), id) then r.Tasks()[id].status == ASSIGNED
             else r.Tasks()[id] == s.Tasks()[id])
    && (forall id :: Runnable(s.Store(), id) <==> Runnable(r.Store(), id))
  }

  lemma AdvanceTakesOne(s: System, j: nat, pc: Pc, store: Store, status: TaskStatus, event: Event)
    requires Shape(s) && j < |s.pipes| && s.pipes[j].pc.Start?
    requires Changes(s.Store(), store, s.pipes[j].task, status) && Allowed(s, j, pc, status, event)
    requires !pc.Assigned? ==> store == s.Store()
    ensures TookOne(s, Advance(s, j, pc, store, event), j)
  {
    AdvanceKeepsShape(s, j, pc, store, status, event);
  }

  lemma AssignTakesOne(s: System, j: nat)
    requires Shape(s) && j < |s.pipes| && s.pipes[j].pc.Start?
    ensures TookOne(s, AssignStep(s, j), j)
  {
    var pc, store, status, event := AssignShape(s, j);
    AdvanceTakesOne(s, j, pc, store, status, event);
  }

  lemma StillAtStart(p: seq<Pipe>, q: seq<Pipe>, j: nat, id: string)
    requires j < |p| && p[j].pc.Start? && j < |q| && q == p[j := q[j]] && q[j].task == p[j].task && !q[j].pc.Start?
    ensures HasPipe(p, id, AtStart) <==> id == p[j].task || HasPipe(q, id, AtStart)
  {
    if k :| 0 <= k < |p| && IsAt(p[k], id, AtStart) {
      assert k == j || IsAt(q[k], id, AtStart);
    }
    if k :| 0 <= k < |q| && IsAt(q[k], id, AtStart) {
      assert IsAt(p[k], id, AtStart);
    }
    assert IsAt(p[j], p[j].task, AtStart);
  }

  lemma TaskTakenOnwards(s: System, r: System, t: System, j: nat, id: string)
    requires j < |s.pipes| && s.pipes[j].pc.Start? && TookOne(s, r, j)
    requires id in s.Tasks() && id in t.Tasks() && TakenTask(r, t.Store(), id)
    ensures TakenTask(s, t.Store(), id)
  {
    StillAtStart(s.pipes, r.pipes, j, id);
  }

  lemma TakenOnwards(s: System, r: System, t: System, j: nat)
    requires j < |s.pipes| && s.pipes[j].pc.Start? && TookOne(s, r, j) && Taken(r, t)
    ensures Taken(s, t)
  {
    forall k | 0 <= k < |s.pipes|
      ensures TakenPipe(s.Store(), s.pipes[k], t.pipes[k])
    {
      assert TakenPipe(r.Store(), r.pipes[k], t.pipes[k]);
    }
    forall id | id in s.Tasks()
      ensures TakenTask(s, t.Store(), id)
    {
      TaskTakenOnwards(s, r, t, j, id);
    }
  }

  lemma {:induction false} AllStartFrom(settings: Settings, from: System, s: System, j: nat) returns (r: System)
    requires Reaches(settings, true, from, s) && Shape(s) && j <= |s.pipes|
    requires forall k :: 0 <= k < j ==> !s.pipes[k].pc.Start?
    ensures Reaches(settings, true, from, r) && Taken(s, r) && NoneAtStart(r)
    decreases |s.pipes| - j
  {
    if j == |s.pipes| {
      r := s;
      TakenSelf(s);
    } else if s.pipes[j].pc.Start? {
      var next := AssignStep(s, j);
      AssignTakesOne(s, j);
      ReachesNext(settings, true, from, s, Assign(j), next);
      r := AllStartFrom(settings, from, next, j + 1);
      TakenOnwards(s, next, r, j);
    } else {
      r := AllStartFrom(settings, from, s, j + 1);
    }
  }

  /** In the order of their creation all coroutines at their start can get going. */
  lemma AllStart(settings: Settings, from: System, s: System) returns (r: System)
    requires Reaches(settings, true, from, s) && Shape(s)
    ensures Reaches(settings, true, from, r) && Taken(s, r) && NoneAtStart(r)
  {
    r := AllStartFrom(settings, from, s, 0);
  }

  // ---- From paths to runs ----

  lemma PathIsPath(settings: Settings, ordered: bool, path: seq<System>)
    requires GoesOn(settings, ordered, path, 0)
    ensures IsPath(settings, path)
  {
    forall k | 0 <= k < |path| - 1
      ensures Next(settings, path[k], path[k + 1])
    {
      assert Step(settings, ordered, path[k], path[k + 1]);
    }
  }

  /** `whole` is a run that goes on from `run`, in turn if `ordered`, and ends in `s`. */
  ghost predicate LeadsOn(
    settings: Settings, ordered: bool, pool: Store, broker: Broker<Message>, plan: seq<TaskSpec>, run: seq<System>,
    whole: seq<System>, s: System)
  {
    && IsRun(settings, pool, broker, plan, whole) && 0 < |run| && run <= whole && whole[|whole| - 1] == s
    && GoesOn(settings, ordered, whole, |run| - 1)
  }

  lemma PathLeadsOn(
    settings: Settings, ordered: bool, pool: Store, broker: Broker<Message>, plan: seq<TaskSpec>, run: seq<System>,
    path: seq<System>, s: System)
    returns (whole: seq<System>)
    requires IsRun(settings, pool, broker, plan, run) && IsPathTo(settings, ordered, path, run[|run| - 1], s)
    ensures LeadsOn(settings, ordered, pool, broker, plan, run, whole, s)
  {
    whole := run + path[1..];
    var last := |run| - 1;
    forall k | last <= k < |whole| - 1
      ensures Step(settings, ordered, whole[k], whole[k + 1])
    {
      assert Step(settings, ordered, path[k - last], path[k - last + 1]);
    }
    forall k | 0 <= k < |whole| - 1
      ensures Next(settings, whole[k], whole[k + 1])
    {
      if k < last {
        assert Next(settings, run[k], run[k + 1]);
      } else {
        assert Step(settings, ordered, whole[k], whole[k + 1]);
      }
    }
  }

  /** What is reached from where a run ends, a longer run reaches. */
  lemma ReachedByRun(
    settings: Settings, ordered: bool, pool: Store, broker: Broker<Message>, plan: seq<TaskSpec>, run: seq<System>,
    s: System)
    returns (whole: seq<System>)
    requires IsRun(settings, pool, broker, plan, run) && Reaches(settings, ordered, run[|run| - 1], s)
    ensures LeadsOn(settings, ordered, pool, broker, plan, run, whole, s)
  {
    var path :| IsPathTo(settings, ordered, path, run[|run| - 1], s);
    whole := PathLeadsOn(settings, ordered, pool, broker, plan, run, path, s);
  }
}
