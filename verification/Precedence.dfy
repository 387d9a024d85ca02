/** Dependencies come first, transitively, in the event log of every run. */
module Precedence {
  import opened Collections
  import opened Models
  import opened TaskStores
  import opened MemoryQueues
  import opened Schedulers
  import opened Pipelines
  import opened Lifecycle
  import opened Quiescence

  /** The task is handed to a worker or starts running. */
  predicate Begins(e: Event) { e.TaskAssigned? || e.TaskStarted? }

  ghost predicate ValidatedBefore(log: seq<Event>, k: nat, id: string)
    requires k <= |log|
  {
    exists j :: 0 <= j < k && log[j] == TaskValidated(id)
  }

  ghost predicate AssignedBefore(log: seq<Event>, k: nat, id: string)
    requires k <= |log|
  {
    exists j :: 0 <= j < k && log[j].TaskAssigned? && log[j].task == id
  }

  /** Every direct dependency of `id` has been validated before position k. */
  ghost predicate DepsValidatedBefore(s: System, id: string, k: nat)
    requires id in s.Tasks() && k <= |s.log|
  {
    forall d :: d in s.Tasks()[id].spec.dependencies ==> ValidatedBefore(s.log, k, d)
  }

  /** A task begins only after its dependencies, and is validated only after it was assigned. */
  ghost predicate OrderedAt(s: System, k: nat)
    requires k < |s.log|
  {
    var e := s.log[k];
    && e.task in s.Tasks()
    && (Begins(e) ==> !Pending(s, e.task) && DepsValidatedBefore(s, e.task, k))
    && (e.TaskValidated? ==> AssignedBefore(s.log, k, e.task))
  }

  ghost predicate AllOrdered(s: System) {
    forall k :: 0 <= k < |s.log| ==> OrderedAt(s, k)
  }

  /** A coroutine past assignment has its assignment in the log. */
  ghost predicate TakenLogged(s: System, i: nat)
    requires i < |s.pipes|
  {
    StageOf(s.pipes[i].pc) in {AtStart, AtWaiting, AtDone} || AssignedBefore(s.log, |s.log|, s.pipes[i].task)
  }

  ghost predicate AllTakenLogged(s: System) {
    forall i :: 0 <= i < |s.pipes| ==> TakenLogged(s, i)
  }

  ghost predicate PrecedenceInv(s: System) {
    && AllOrdered(s) && AllTakenLogged(s)
    && (forall id :: id in s.Tasks() && !Pending(s, id) ==> DepsValidatedBefore(s, id, |s.log|))
  }

  lemma OrderedStays(s: System, s': System, k: nat)
    requires k < |s.log| && OrderedAt(s, k) && s.log <= s'.log
    requires forall id :: id in s.Tasks() ==> id in s'.Tasks() && s'.Tasks()[id].spec == s.Tasks()[id].spec
    requires forall id :: Pending(s', id) ==> Pending(s, id)
    ensures OrderedAt(s', k)
  {
    var e := s.log[k];
    assert s'.log[k] == e;
    if Begins(e) {
      forall d | d in s.Tasks()[e.task].spec.dependencies
        ensures ValidatedBefore(s'.log, k, d)
      {
        assert ValidatedBefore(s.log, k, d);
        var j :| 0 <= j < k && s.log[j] == TaskValidated(d);
        assert s'.log[j] == TaskValidated(d);
      }
    }
    if e.TaskValidated? {
      var j :| 0 <= j < k && s.log[j].TaskAssigned? && s.log[j].task == e.task;
      assert s'.log[j] == s.log[j];
    }
  }

  lemma ValidatedStays(log: seq<Event>, log': seq<Event>, id: string)
    requires log <= log' && ValidatedBefore(log, |log|, id)
    ensures ValidatedBefore(log', |log'|, id)
  {
    var j :| 0 <= j < |log| && log[j] == TaskValidated(id);
    assert log'[j] == TaskValidated(id);
  }

  lemma AssignedStays(log: seq<Event>, log': seq<Event>, id: string)
    requires log <= log' && AssignedBefore(log, |log|, id)
    ensures AssignedBefore(log', |log'|, id)
  {
    var j :| 0 <= j < |log| && log[j].TaskAssigned? && log[j].task == id;
    assert log'[j] == log[j];
  }

  lemma DepsStay(s: System, s': System, id: string)
    requires id in s.Tasks() && id in s'.Tasks() && s'.Tasks()[id].spec == s.Tasks()[id].spec
    requires s.log <= s'.log && DepsValidatedBefore(s, id, |s.log|)
    ensures DepsValidatedBefore(s', id, |s'.log|)
  {
    forall d | d in s'.Tasks()[id].spec.dependencies
      ensures ValidatedBefore(s'.log, |s'.log|, d)
    {
      assert ValidatedBefore(s.log, |s.log|, d);
      ValidatedStays(s.log, s'.log, d);
    }
  }

  lemma AdvanceKeepsOrder(s: System, i: nat, pc: Pc, store: Store, status: TaskStatus, event: Event)
    requires Shape(s) && PendingFresh(s) && PrecedenceInv(s) && i < |s.pipes|
    requires Changes(s.Store(), store, s.pipes[i].task, status) && Allowed(s, i, pc, status, event)
    ensures OrderedAt(Advance(s, i, pc, store, event), |s.log|)
  {
    var s' := Advance(s, i, pc, store, event);
    var id := s.pipes[i].task;
    PendingNotTouched(s, i);
    assert s'.log[|s.log|] == event && s'.log[..|s.log|] == s.log;
    assert TakenLogged(s, i);
    if Begins(event) {
      forall d | d in s'.Tasks()[id].spec.dependencies
        ensures ValidatedBefore(s'.log, |s.log|, d)
      {
        assert ValidatedBefore(s.log, |s.log|, d);
        var j :| 0 <= j < |s.log| && s.log[j] == TaskValidated(d);
        assert s'.log[j] == TaskValidated(d);
      }
    }
    if event.TaskValidated? {
      var j :| 0 <= j < |s.log| && s.log[j].TaskAssigned? && s.log[j].task == id;
      assert s'.log[j] == s.log[j];
    }
  }

  lemma AdvanceKeepsTaken(s: System, i: nat, pc: Pc, store: Store, status: TaskStatus, event: Event, m: nat)
    requires AllTakenLogged(s) && i < |s.pipes| && m < |s.pipes|
    requires s.pipes[i].task in s.Tasks() && Allowed(s, i, pc, status, event)
    ensures TakenLogged(Advance(s, i, pc, store, event), m)
  {
    var s' := Advance(s, i, pc, store, event);
    assert TakenLogged(s, m);
    if AssignedBefore(s.log, |s.log|, s.pipes[m].task) {
      AssignedStays(s.log, s'.log, s.pipes[m].task);
    }
    if m == i && event.TaskAssigned? {
      assert s'.log[|s.log|] == event;
    }
  }

  lemma SpecsKept(s: Store, r: Store, id: string, status: TaskStatus)
    requires Changes(s, r, id, status)
    ensures r.tasks.Keys == s.tasks.Keys && forall x :: x in s.tasks ==> r.tasks[x].spec == s.tasks[x].spec
  {
  }

  lemma AdvanceKeepsAllTaken(s: System, i: nat, pc: Pc, store: Store, status: TaskStatus, event: Event)
    requires AllTakenLogged(s) && i < |s.pipes|
    requires s.pipes[i].task in s.Tasks() && Allowed(s, i, pc, status, event)
    ensures AllTakenLogged(Advance(s, i, pc, store, event))
  {
    forall m | 0 <= m < |s.pipes|
      ensures TakenLogged(Advance(s, i, pc, store, event), m)
    {
      AdvanceKeepsTaken(s, i, pc, store, status, event, m);
    }
  }

  lemma AdvanceKeepsAllOrdered(s: System, i: nat, pc: Pc, store: Store, status: TaskStatus, event: Event)
    requires Shape(s) && PendingFresh(s) && PrecedenceInv(s) && i < |s.pipes|
    requires Changes(s.Store(), store, s.pipes[i].task, status) && Allowed(s, i, pc, status, event)
    ensures AllOrdered(Advance(s, i, pc, store, event))
  {
    var s' := Advance(s, i, pc, store, event);
    AdvanceKeepsOrder(s, i, pc, store, status, event);
    forall k | 0 <= k < |s'.log|
      ensures OrderedAt(s', k)
    {
      if k < |s.log| {
        OrderedStays(s, s', k);
      }
    }
  }

  lemma ReleasedDepsStay(s: System, s': System)
    requires PrecedenceInv(s) && s.log <= s'.log && s'.desk.pending == s.desk.pending
    requires s'.Tasks().Keys == s.Tasks().Keys
    requires forall id :: id in s.Tasks() ==> s'.Tasks()[id].spec == s.Tasks()[id].spec
    ensures forall id :: id in s'.Tasks() && !Pending(s', id) ==> DepsValidatedBefore(s', id, |s'.log|)
  {
    forall id | id in s'.Tasks() && !Pending(s', id)
      ensures DepsValidatedBefore(s', id, |s'.log|)
    {
      assert Pending(s', id) <==> Pending(s, id);
      DepsStay(s, s', id);
    }
  }

  lemma AdvanceKeepsPrecedence(s: System, i: nat, pc: Pc, store: Store, status: TaskStatus, event: Event)
    requires Shape(s) && PendingFresh(s) && PrecedenceInv(s) && i < |s.pipes|
    requires Changes(s.Store(), store, s.pipes[i].task, status) && Allowed(s, i, pc, status, event)
    ensures PrecedenceInv(Advance(s, i, pc, store, event))
  {
    var s' := Advance(s, i, pc, store, event);
    AdvanceKeepsAllOrdered(s, i, pc, store, status, event);
    AdvanceKeepsAllTaken(s, i, pc, store, status, event);
    SpecsKept(s.Store(), store, s.pipes[i].task, status);
    ReleasedDepsStay(s, s');
  }

  lemma RespawnKeepsPrecedence(s: System, i: nat)
    requires PrecedenceInv(s) && i < |s.pipes| && s.pipes[i].pc.Backoff?
    ensures PrecedenceInv(RespawnStep(s, i))
  {
    var s' := RespawnStep(s, i);
    forall k | 0 <= k < |s'.log|
      ensures OrderedAt(s', k)
    {
      OrderedStays(s, s', k);
    }
    forall id | id in s'.Tasks() && !Pending(s', id)
      ensures DepsValidatedBefore(s', id, |s'.log|)
    {
      DepsStay(s, s', id);
    }
    forall m | 0 <= m < |s'.pipes|
      ensures TakenLogged(s', m)
    {
      if m < |s.pipes| {
        assert TakenLogged(s, m);
      }
    }
  }

  /** A task that scheduling sends out has settled, hence logged, dependencies. */
  lemma ReleasedDepsLogged(s: System, id: string)
    requires ReadyToRelease(s) && Goes(s, id)
    ensures DepsValidatedBefore(s, id, |s.log|)
  {
    var deps := s.Tasks()[id].spec.dependencies;
    forall d | d in deps
      ensures ValidatedBefore(s.log, |s.log|, d)
    {
      var n :| 0 <= n < |deps| && deps[n] == d;
      assert s.Store().Settled(deps[n]);
      if Pending(s, d) {
        PendingSpec(s, d);
      }
      assert Covered(s, d);
    }
  }

  lemma ReleaseKeepsPrecedence(s: System)
    requires ReadyToRelease(s) && PrecedenceInv(s)
    ensures PrecedenceInv(Release(s))
  {
    var s' := Release(s);
    ReleaseEffect(s);
    SpawnedPipes(s, "");
    forall k | 0 <= k < |s'.log|
      ensures OrderedAt(s', k)
    {
      OrderedStays(s, s', k);
    }
    forall id | id in s'.Tasks() && !Pending(s', id)
      ensures DepsValidatedBefore(s', id, |s'.log|)
    {
      if Goes(s, id) {
        ReleasedDepsLogged(s, id);
      }
      DepsStay(s, s', id);
    }
    forall m | 0 <= m < |s'.pipes|
      ensures TakenLogged(s', m)
    {
      if m < |s.pipes| {
        assert TakenLogged(s, m) && s'.pipes[m] == s.pipes[m];
      }
    }
  }

  lemma EndedKeepsPrecedence(s: System, i: nat)
    requires PrecedenceInv(s) && i < |s.pipes|
    ensures PrecedenceInv(s.(pipes := s.pipes[i := Pipe(s.pipes[i].task, Done)]))
  {
    var ended := s.(pipes := s.pipes[i := Pipe(s.pipes[i].task, Done)]);
    forall k | 0 <= k < |ended.log|
      ensures OrderedAt(ended, k)
    {
      OrderedStays(s, ended, k);
    }
    forall id | id in ended.Tasks() && !Pending(ended, id)
      ensures DepsValidatedBefore(ended, id, |ended.log|)
    {
      DepsStay(s, ended, id);
    }
    forall m | 0 <= m < |ended.pipes|
      ensures TakenLogged(ended, m)
    {
      assert TakenLogged(s, m);
    }
  }

  lemma NextKeepsPrecedence(settings: Settings, s: System, s': System)
    requires LifecycleInv(s) && PrecedenceInv(s) && Next(settings, s, s')
    ensures PrecedenceInv(s')
  {
    var a :| StepBy(settings, s, a, s');
    match a {
      case Wake(i) =>
        EndedIsReady(s, i);
        EndedKeepsPrecedence(s, i);
        ReleaseKeepsPrecedence(s.(pipes := s.pipes[i := Pipe(s.pipes[i].task, Done)]));
      case Respawn(i) => RespawnKeepsPrecedence(s, i);
      case _ =>
        var pc, store, status, event := StepShape(settings, s, a);
        AdvanceKeepsPrecedence(s, a.i, pc, store, status, event);
    }
  }

  lemma {:induction false} RunKeepsPrecedence(
    settings: Settings, pool: Store, broker: Broker<Message>, plan: seq<TaskSpec>, run: seq<System>, k: nat)
    requires IsRun(settings, pool, broker, plan, run) && k < |run|
    ensures PrecedenceInv(run[k])
  {
    if k == 0 {
      LoadedIsReady(pool, broker, plan);
      ReleaseKeepsPrecedence(Loaded(pool, broker, plan));
    } else {
      RunKeepsPrecedence(settings, pool, broker, plan, run, k - 1);
      RunKeepsLifecycle(settings, pool, broker, plan, run, k - 1);
      assert Next(settings, run[k - 1], run[k - 1 + 1]);
      NextKeepsPrecedence(settings, run[k - 1], run[k]);
    }
  }

  /** Walking down a chain of dependencies, each one validated before the last began. */
  lemma {:induction false} ChainPrecedes(s: System, chain: seq<string>, k: nat)
    requires PrecedenceInv(s) && IsChain(s.Store(), chain) && |chain| > 1
    requires k < |s.log| && Begins(s.log[k]) && s.log[k].task == chain[0]
    ensures ValidatedBefore(s.log, k, chain[|chain| - 1])
  {
    assert OrderedAt(s, k);
    assert chain[0 + 1] in s.Tasks()[chain[0]].spec.dependencies;
    assert ValidatedBefore(s.log, k, chain[1]);
    if |chain| == 2 {
    } else {
      var j :| 0 <= j < k && s.log[j] == TaskValidated(chain[1]);
      assert OrderedAt(s, j);
      var m :| 0 <= m < j && s.log[m].TaskAssigned? && s.log[m].task == chain[1];
      var rest := chain[1..];
      assert forall n :: 0 <= n < |rest| ==> rest[n] == chain[n + 1];
      ChainPrecedes(s, rest, m);
      var n :| 0 <= n < m && s.log[n] == TaskValidated(rest[|rest| - 1]);
    }
  }

  /**
   In the event log of any run, coroutines overlapping or not: whenever a task
   is assigned or started, each of its direct and indirect dependencies has
   been validated earlier.
   */
  lemma DependenciesComeFirst(
    settings: Settings, pool: Store, broker: Broker<Message>, plan: seq<TaskSpec>, run: seq<System>,
    k: nat, m: nat, dependency: string)
    requires IsRun(settings, pool, broker, plan, run) && k < |run| && m < |run[k].log|
    requires Begins(run[k].log[m]) && DependsOn(run[k].Store(), run[k].log[m].task, dependency)
    ensures exists j :: 0 <= j < m && run[k].log[j] == TaskValidated(dependency)
  {
    RunKeepsPrecedence(settings, pool, broker, plan, run, k);
    var s := run[k];
    var chain :| |chain| > 1 && Leads(s.Store(), chain, s.log[m].task, dependency);
    ChainPrecedes(s, chain, m);
  }

  lemma PendingNeverBegan(s: System, id: string, m: nat)
    requires PrecedenceInv(s) && Pending(s, id) && m < |s.log|
    ensures !(Begins(s.log[m]) && s.log[m].task == id)
  {
    assert OrderedAt(s, m);
  }

  /** A pending task is untouched: as planned, no coroutine past or present, never begun. */
  lemma PendingIsUntouched(
    settings: Settings, pool: Store, broker: Broker<Message>, plan: seq<TaskSpec>, run: seq<System>, k: nat, id: string)
    requires IsRun(settings, pool, broker, plan, run) && k < |run| && Pending(run[k], id)
    ensures id in run[k].Tasks()
    ensures run[k].Tasks()[id] ==
            Task(run[k].Tasks()[id].spec, CREATED, None, None, None, None, 0, None, None, None, None, None)
    ensures !Touched(run[k].pipes, id)
    ensures forall m :: 0 <= m < |run[k].log| ==> !(Begins(run[k].log[m]) && run[k].log[m].task == id)
  {
    RunKeepsLifecycle(settings, pool, broker, plan, run, k);
    RunKeepsPrecedence(settings, pool, broker, plan, run, k);
    PendingSpec(run[k], id);
    forall m | 0 <= m < |run[k].log|
      ensures !(Begins(run[k].log[m]) && run[k].log[m].task == id)
    {
      PendingNeverBegan(run[k], id, m);
    }
  }
}
