/**
 backend/agents/load_balancer.py: least-loaded-first assignment with loads
 that saturate at 0 and 100 percent.
 */
module LoadBalancers {
  import opened Collections
  import opened Models
  import opened TaskStores
  import Text

  const FULL_LOAD := 100

  const LOAD_STEP := 25

  function WorkerTypeFor(partition: string): string {
    if partition == "io" then "io" else "cpu"
  }

  function Engage(w: WorkerStatus, taskId: string): WorkerStatus {
    w.(status := Busy, currentTask := Some(taskId), loadPct := Min(FULL_LOAD, w.loadPct + LOAD_STEP))
  }

  function Disengage(w: WorkerStatus, success: bool): WorkerStatus {
    var idle := w.(status := Idle, currentTask := None, loadPct := Max(0, w.loadPct - LOAD_STEP));
    if success then idle.(tasksCompleted := w.tasksCompleted + 1)
    else idle.(tasksFailed := w.tasksFailed + 1)
  }

  /** The worker an assignment would choose. */
  function Choice(s: Store, task: TaskSpec): Option<string> {
    s.LeastLoaded(s.workerOrder, WorkerTypeFor(task.partition))
  }

  function AfterAssign(s: Store, task: TaskSpec): Store {
    match Choice(s, task)
    case None => s
    case Some(w) =>
      s.UpdateWorker(w, (worker: WorkerStatus) => Engage(worker, task.taskId))
       .UpdateTask(task.taskId, (t: Task) => t.(status := ASSIGNED, assignedWorker := Some(w)))
  }

  function AfterRelease(s: Store, workerId: string, success: bool): Store {
    s.UpdateWorker(workerId, (worker: WorkerStatus) => Disengage(worker, success))
  }

  function WorkerName(workerType: string, i: nat): string {
    "worker_" + workerType + "_" + Text.Decimal(i)
  }

  /** Registers workers 1..n of one type. */
  function RegisterMany(s: Store, workerType: string, n: nat): Store {
    if n == 0 then s
    else RegisterMany(s, workerType, n - 1).RegisterWorker(NewWorker(WorkerName(workerType, n), workerType))
  }

  function Registered(s: Store, cpuCount: nat, ioCount: nat): Store {
    RegisterMany(RegisterMany(s, "cpu", cpuCount), "io", ioCount)
  }

  function HasType(s: Store, workerType: string): string -> bool {
    w => w in s.workers && s.workers[w].workerType == workerType
  }

  /** The workers of one type, in registration order. */
  function OfType(s: Store, workerType: string): seq<string> {
    Filter(s.workerOrder, HasType(s, workerType))
  }

  /** A pool nobody has used yet. */
  ghost predicate FreshPool(s: Store) {
    && s.WellFormed()
    && forall w :: w in s.workers ==> s.workers[w] == NewWorker(w, s.workers[w].workerType)
  }

  lemma WorkerNamesDiffer(a: string, i: nat, b: string, j: nat)
    requires a in {"cpu", "io"} && b in {"cpu", "io"}
    requires WorkerName(a, i) == WorkerName(b, j)
    ensures a == b && i == j
  {
    var x := WorkerName(a, i);
    assert x[7] == a[0] && x[7] == b[0];
    assert a == b;
    assert x[|"worker_" + a + "_"|..] == Text.Decimal(i);
    assert x[|"worker_" + b + "_"|..] == Text.Decimal(j);
    Text.DecimalInjective(i, j);
  }

  /** `w` is the name of one of workers 1..n of a type. */
  ghost predicate IsNamed(w: string, workerType: string, n: nat) {
    exists i: nat :: 1 <= i <= n && w == WorkerName(workerType, i)
  }

  lemma {:induction false} FilterSame(s: seq<string>, f: string -> bool, g: string -> bool)
    requires forall x :: x in s ==> f(x) == g(x)
    ensures Filter(s, f) == Filter(s, g)
  {
    if s == [] {
    } else {
      assert s[0] in s;
      assert forall x :: x in s[1..] ==> x in s;
      FilterSame(s[1..], f, g);
    }
  }

  /** A worker registered under a new name joins its own type and no other. */
  lemma RegisterOne(s: Store, name: string, workerType: string)
    requires FreshPool(s) && name !in s.workers
    ensures var r := s.RegisterWorker(NewWorker(name, workerType));
            && FreshPool(r)
            && forall t :: OfType(r, t) == OfType(s, t) + if t == workerType then [name] else []
  {
    var r := s.RegisterWorker(NewWorker(name, workerType));
    forall t
      ensures OfType(r, t) == OfType(s, t) + if t == workerType then [name] else []
    {
      FilterAppend(s.workerOrder, [name], HasType(r, t));
      FilterSame(s.workerOrder, HasType(r, t), HasType(s, t));
    }
  }

  /** Registering n workers of a type adds exactly n fresh workers of that type. */
  lemma {:induction false} RegisterManyAdds(s: Store, workerType: string, n: nat)
    requires FreshPool(s) && workerType in {"cpu", "io"}
    requires forall w :: w in s.workers ==> forall i: nat :: w != WorkerName(workerType, i)
    ensures var r := RegisterMany(s, workerType, n);
            && FreshPool(r)
            && r == s.(workers := r.workers, workerOrder := r.workerOrder)
            && |OfType(r, workerType)| == |OfType(s, workerType)| + n
            && (forall t :: t != workerType ==> OfType(r, t) == OfType(s, t))
            && (forall w :: w in r.workers ==> w in s.workers || IsNamed(w, workerType, n))
  {
    if n == 0 {
    } else {
      RegisterManyAdds(s, workerType, n - 1);
      var q := RegisterMany(s, workerType, n - 1);
      var name := WorkerName(workerType, n);
      if name in q.workers {
        assert IsNamed(name, workerType, n - 1);
        var i: nat :| 1 <= i <= n - 1 && name == WorkerName(workerType, i);
        WorkerNamesDiffer(workerType, n, workerType, i);
      }
      RegisterOne(q, name, workerType);
      forall w | w in RegisterMany(s, workerType, n).workers
        ensures w in s.workers || IsNamed(w, workerType, n)
      {
        if w in q.workers && w !in s.workers {
          assert IsNamed(w, workerType, n - 1);
        }
      }
    }
  }

  lemma CpuNameIsNotIo(w: string, n: nat, i: nat)
    requires IsNamed(w, "cpu", n)
    ensures w != WorkerName("io", i)
  {
    var j: nat :| 1 <= j <= n && w == WorkerName("cpu", j);
    if w == WorkerName("io", i) {
      WorkerNamesDiffer("io", i, "cpu", j);
    }
  }

  /** Start-up on an empty store yields exactly the configured numbers of idle, unloaded workers. */
  lemma RegistrationCounts(s: Store, cpuCount: nat, ioCount: nat)
    requires s.WellFormed() && s.workers == map[]
    ensures var r := Registered(s, cpuCount, ioCount);
            && FreshPool(r) && r == s.(workers := r.workers, workerOrder := r.workerOrder)
            && |OfType(r, "cpu")| == cpuCount && |OfType(r, "io")| == ioCount
  {
    assert forall k :: 0 <= k < |s.workerOrder| ==> s.workerOrder[k] in s.workers;
    RegisterManyAdds(s, "cpu", cpuCount);
    var m := RegisterMany(s, "cpu", cpuCount);
    forall w, i: nat | w in m.workers
      ensures w != WorkerName("io", i)
    {
      CpuNameIsNotIo(w, cpuCount, i);
    }
    RegisterManyAdds(m, "io", ioCount);
  }

  /** worker_<type>_1, worker_<type>_2, ... */
  function Numbered(workerType: string, n: nat): (r: seq<string>)
    ensures |r| == n && forall i :: 0 <= i < n ==> r[i] == "worker_" + workerType + "_" + Text.Decimal(i + 1)
  {
    seq(n, i requires 0 <= i < n => "worker_" + workerType + "_" + Text.Decimal(i + 1))
  }

  lemma OneMoreNumbered(workerType: string, n: nat)
    requires workerType in {"cpu", "io"} && n > 0
    ensures Numbered(workerType, n) == Numbered(workerType, n - 1) + [WorkerName(workerType, n)]
    ensures WorkerName(workerType, n) !in Numbered(workerType, n - 1)
  {
    if WorkerName(workerType, n) in Numbered(workerType, n - 1) {
      var i :| 0 <= i < n - 1 && Numbered(workerType, n - 1)[i] == WorkerName(workerType, n);
      WorkerNamesDiffer(workerType, n, workerType, i + 1);
    }
  }

  /** A worker under a new name comes last. */
  lemma RegisterNew(s: Store, name: string, workerType: string)
    requires s.WellFormed() && name !in s.workers
    ensures var r := s.RegisterWorker(NewWorker(name, workerType));
            && r.WellFormed() && r.workerOrder == s.workerOrder + [name]
            && forall w :: w in r.workers <==> w in s.workers || w == name
  {
  }

  lemma {:induction false} RegisterManyInOrder(s: Store, workerType: string, n: nat)
    requires s.WellFormed() && workerType in {"cpu", "io"}
    requires forall w :: w in s.workers ==> forall i: nat :: w != WorkerName(workerType, i)
    ensures RegisterMany(s, workerType, n).WellFormed()
    ensures RegisterMany(s, workerType, n).workerOrder == s.workerOrder + Numbered(workerType, n)
    ensures forall w :: w in RegisterMany(s, workerType, n).workers ==> w in s.workers || w in Numbered(workerType, n)
  {
    if n == 0 {
    } else {
      RegisterManyInOrder(s, workerType, n - 1);
      var q, name := RegisterMany(s, workerType, n - 1), WorkerName(workerType, n);
      OneMoreNumbered(workerType, n);
      RegisterNew(q, name, workerType);
    }
  }

  lemma NumberedCpuIsNotIo(w: string, n: nat, i: nat)
    requires w in Numbered("cpu", n)
    ensures w != WorkerName("io", i)
  {
    var j :| 0 <= j < n && Numbered("cpu", n)[j] == w;
    if w == WorkerName("io", i) {
      WorkerNamesDiffer("io", i, "cpu", j + 1);
    }
  }

  /** Start-up registers worker_cpu_1, worker_cpu_2, ... and then worker_io_1, worker_io_2, ... */
  lemma WorkersInOrder(s: Store, cpuCount: nat, ioCount: nat)
    requires s.WellFormed() && s.workers == map[] && s.workerOrder == []
    ensures Registered(s, cpuCount, ioCount).workerOrder == Numbered("cpu", cpuCount) + Numbered("io", ioCount)
  {
    RegisterManyInOrder(s, "cpu", cpuCount);
    var m := RegisterMany(s, "cpu", cpuCount);
    forall w, i: nat | w in m.workers
      ensures w != WorkerName("io", i)
    {
      NumberedCpuIsNotIo(w, cpuCount, i);
    }
    RegisterManyInOrder(m, "io", ioCount);
  }

  /** Nobody registered at start-up has a load, a task or a record yet. */
  lemma WorkersStartFresh(s: Store, cpuCount: nat, ioCount: nat, w: string)
    requires s.WellFormed() && s.workers == map[] && w in Registered(s, cpuCount, ioCount).workers
    ensures var worker := Registered(s, cpuCount, ioCount).workers[w];
            && worker.workerId == w && worker.loadPct == 0 && worker.tasksCompleted == worker.tasksFailed == 0
            && worker.currentTask == None && worker.status == Idle
  {
    RegistrationCounts(s, cpuCount, ioCount);
  }

  class LoadBalancer {
    const store: TaskStore

    constructor (store: TaskStore)
      ensures this.store == store
    {
      this.store := store;
    }

    method RegisterWorkers(cpuCount: nat, ioCount: nat)
      modifies store
      ensures store.View() == Registered(old(store.View()), cpuCount, ioCount)
    {
      for i := 1 to cpuCount + 1
        invariant store.View() == RegisterMany(old(store.View()), "cpu", i - 1)
      {
        store.RegisterWorker(NewWorker(WorkerName("cpu", i), "cpu"));
      }
      ghost var mid := store.View();
      for i := 1 to ioCount + 1
        invariant store.View() == RegisterMany(mid, "io", i - 1)
      {
        store.RegisterWorker(NewWorker(WorkerName("io", i), "io"));
      }
    }

    method AssignWorker(task: TaskSpec) returns (chosen: Option<string>)
      modifies store
      ensures store.View() == AfterAssign(old(store.View()), task)
      ensures chosen == Choice(old(store.View()), task)
    {
      var workerType := if task.partition == "io" then "io" else "cpu";
      chosen := store.GetLeastLoadedWorker(workerType);
      if chosen.None? {
        return;
      }
      var w := chosen.value;
      store.UpdateWorker(w, (worker: WorkerStatus) =>
        worker.(status := Busy, currentTask := Some(task.taskId), loadPct := Min(100, worker.loadPct + 25)));
      var _ := store.UpdateTask(task.taskId, (t: Task) => t.(status := ASSIGNED, assignedWorker := Some(w)));
    }

    method ReleaseWorker(workerId: string, success: bool)
      modifies store
      ensures store.View() == AfterRelease(old(store.View()), workerId, success)
    {
      var worker := store.GetWorker(workerId);
      if worker.None? {
        return;
      }
      var updated := worker.value.(status := Idle, currentTask := None, loadPct := Max(0, worker.value.loadPct - 25));
      if success {
        updated := updated.(tasksCompleted := worker.value.tasksCompleted + 1);
      } else {
        updated := updated.(tasksFailed := worker.value.tasksFailed + 1);
      }
      store.UpdateWorker(workerId, (_: WorkerStatus) => updated);
    }
  }
}
