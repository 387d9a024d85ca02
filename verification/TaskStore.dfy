/**
 backend/store/task_store.py: the shared in-memory store. `Store` is its value
 at one moment, with the functions that say what each call does to it; class
 `TaskStore` is the object that is updated in place.
 */
module TaskStores {
  import opened Collections
  import opened Models

  /** `taskOrder` and `workerOrder` are the insertion orders of the two dictionaries. */
  datatype Store = Store(
    tasks: map<string, Task>,
    taskOrder: seq<string>,
    workers: map<string, WorkerStatus>,
    workerOrder: seq<string>,
    history: seq<ExecutionRecord>,
    failureLogs: seq<FailureLog>,
    totalRetries: nat)
  {
    /** The orders list exactly the keys, each once. */
    ghost predicate WellFormed() {
      && Distinct(taskOrder) && Distinct(workerOrder)
      && (forall k :: k in taskOrder <==> k in tasks)
      && (forall k :: k in workerOrder <==> k in workers)
    }

    function AddTask(task: Task): Store {
      this.(tasks := tasks[task.spec.taskId := task],
            taskOrder := if task.spec.taskId in tasks then taskOrder else taskOrder + [task.spec.taskId])
    }

    /** An update of an unknown task changes nothing. */
    function UpdateTask(id: string, change: Task -> Task): Store {
      if id in tasks then this.(tasks := tasks[id := change(tasks[id])]) else this
    }

    function RegisterWorker(worker: WorkerStatus): Store {
      this.(workers := workers[worker.workerId := worker],
            workerOrder := if worker.workerId in workers then workerOrder else workerOrder + [worker.workerId])
    }

    function UpdateWorker(id: string, change: WorkerStatus -> WorkerStatus): Store {
      if id in workers then this.(workers := workers[id := change(workers[id])]) else this
    }

    predicate HasStatus(id: string, status: TaskStatus) {
      id in tasks && tasks[id].status == status
    }

    /** The states that satisfy a dependency. */
    predicate Settled(id: string) {
      id in tasks && tasks[id].status in {VALIDATED, STORED}
    }

    predicate DependenciesMet(spec: TaskSpec) {
      forall k :: 0 <= k < |spec.dependencies| ==> Settled(spec.dependencies[k])
    }

    predicate Available(id: string, workerType: string) {
      id in workers && workers[id].workerType == workerType && workers[id].status != Offline
    }

    /**
     Ids of the tasks in one state, in insertion order.
     */
    function TasksByStatus(status: TaskStatus): seq<string> {
      Filter(taskOrder, StatusIs(status))
    }

    function StatusIs(status: TaskStatus): string -> bool {
      id => HasStatus(id, status)
    }

    /**
     The available worker of a type with the smallest load; among equals the
     one registered first.
     */
    function LeastLoaded(order: seq<string>, workerType: string): (r: Option<string>)
      ensures r.None? <==> forall k :: k in order ==> !Available(k, workerType)
      ensures r.Some? ==> r.value in order && Available(r.value, workerType)
      ensures r.Some? ==> forall k :: k in order && Available(k, workerType) ==>
                            workers[r.value].loadPct <= workers[k].loadPct
    {
      if order == [] then None
      else
        var rest := LeastLoaded(order[1..], workerType);
        assert forall k :: k in order <==> k == order[0] || k in order[1..];
        if Available(order[0], workerType)
           && (rest.None? || workers[order[0]].loadPct <= workers[rest.value].loadPct)
        then Some(order[0])
        else rest
    }

    /** The execution times that the tasks' records hold, in insertion order. */
    function ExecutionTimes(order: seq<string>): seq<int> {
      if order == [] then []
      else
        (if order[0] in tasks && tasks[order[0]].executionTime.Some? then [tasks[order[0]].executionTime.value] else [])
        + ExecutionTimes(order[1..])
    }

    /** How many tasks are in a state of `group`. */
    function CountIn(order: seq<string>, group: set<TaskStatus>): nat {
      if order == [] then 0
      else (if order[0] in tasks && tasks[order[0]].status in group then 1 else 0) + CountIn(order[1..], group)
    }
  }

  /** Ties go to the worker registered first: everyone available before it carries more. */
  lemma {:induction false} LeastLoadedIsFirst(s: Store, order: seq<string>, workerType: string) returns (i: nat)
    requires s.LeastLoaded(order, workerType).Some?
    ensures i < |order| && order[i] == s.LeastLoaded(order, workerType).value
    ensures forall j :: 0 <= j < i && s.Available(order[j], workerType) ==>
              s.workers[order[i]].loadPct < s.workers[order[j]].loadPct
  {
    if s.LeastLoaded(order, workerType) == Some(order[0]) {
      i := 0;
    } else {
      i := LeastLoadedIsFirst(s, order[1..], workerType);
      assert forall j :: 0 < j <= i ==> order[j] == order[1..][j - 1];
      i := i + 1;
    }
  }

  /** A forward scan meets one more worker. */
  lemma {:induction false} LeastLoadedAppend(s: Store, order: seq<string>, w: string, workerType: string)
    ensures s.LeastLoaded(order + [w], workerType) ==
            var least := s.LeastLoaded(order, workerType);
            if s.Available(w, workerType) && (least.None? || s.workers[w].loadPct < s.workers[least.value].loadPct)
            then Some(w) else least
  {
    if order == [] {
      assert order + [w] == [w];
      assert [w][1..] == [];
    } else {
      assert (order + [w])[1..] == order[1..] + [w];
      LeastLoadedAppend(s, order[1..], w, workerType);
    }
  }

  datatype Health = Stable | Degraded | Critical

  /** Average latency in hundredths of a second, throughput in tasks per minute. */
  datatype SystemSummary = SystemSummary(
    tasksTotal: nat, completed: nat, failed: nat, validated: nat, retries: nat,
    avgLatency: real, throughput: real, systemHealth: Health)

  const DONE_STATES: set<TaskStatus> := {COMPLETED, VALIDATED, STORED}

  const SETTLED_STATES: set<TaskStatus> := {VALIDATED, STORED}

  /** More than 30% failed is critical, more than 10% degraded. */
  function HealthOf(failed: nat, total: nat): Health {
    if total > 0 && failed * 100 > 30 * total then Critical
    else if total > 0 && failed * 100 > 10 * total then Degraded
    else Stable
  }

  /** The rates behind the verdict: above 30 percent failed, and above 10. */
  lemma HealthByRate(failed: nat, total: nat)
    requires failed <= total
    ensures HealthOf(failed, total) == Critical <==> total > 0 && 10.0 * failed as real > 3.0 * total as real
    ensures HealthOf(failed, total) == Stable <==> total == 0 || 10.0 * failed as real <= total as real
  {
  }

  function TotalTime(times: seq<int>): int {
    if times == [] then 0 else times[0] + TotalTime(times[1..])
  }

  lemma {:induction false} TotalTimeAppend(a: seq<int>, b: seq<int>)
    ensures TotalTime(a + b) == TotalTime(a) + TotalTime(b)
  {
    if a == [] {
      assert a + b == b;
    } else {
      assert (a + b)[1..] == a[1..] + b;
      TotalTimeAppend(a[1..], b);
    }
  }

  lemma {:induction false} TimesAppend(s: Store, a: seq<string>, b: seq<string>)
    ensures s.ExecutionTimes(a + b) == s.ExecutionTimes(a) + s.ExecutionTimes(b)
  {
    if a == [] {
      assert a + b == b;
    } else {
      assert (a + b)[1..] == a[1..] + b;
      TimesAppend(s, a[1..], b);
    }
  }

  function HasTime(s: Store): string -> bool {
    id => id in s.tasks && s.tasks[id].executionTime.Some?
  }

  ghost predicate AreTimesOf(s: Store, times: seq<int>, ids: seq<string>) {
    && |times| == |ids|
    && forall k :: 0 <= k < |ids| ==> ids[k] in s.tasks && s.tasks[ids[k]].executionTime == Some(times[k])
  }

  /** The times listed are those of the tasks that have one, each once, in the order of the tasks. */
  lemma {:induction false} TimesListed(s: Store, order: seq<string>)
    ensures AreTimesOf(s, s.ExecutionTimes(order), Filter(order, HasTime(s)))
  {
    if order == [] {
    } else {
      TimesListed(s, order[1..]);
    }
  }

  function Quotient(total: int, count: nat): real {
    if count == 0 then 0.0 else total as real / count as real
  }

  /** The average of the times; of no times it is 0. */
  function Mean(times: seq<int>): real { Quotient(TotalTime(times), |times|) }

  lemma QuotientTimesCount(total: int, count: nat)
    requires count > 0 || total == 0
    ensures Quotient(total, count) * count as real == total as real
  {
  }

  /** All times together are as many times the average. */
  lemma MeanTimesCount(times: seq<int>)
    ensures Mean(times) * |times| as real == TotalTime(times) as real
  {
    QuotientTimesCount(TotalTime(times), |times|);
  }

  /** Tasks per minute. */
  function Throughput(completed: nat, elapsed: real): real {
    if elapsed > 0.0 then completed as real / elapsed * 60.0 else 0.0
  }

  /** Kept up for the time elapsed, in minutes, it makes the completed tasks. */
  lemma ThroughputMakesCompleted(completed: nat, elapsed: real)
    requires elapsed > 0.0
    ensures Throughput(completed, elapsed) * (elapsed / 60.0) == completed as real
  {
  }

  /** Counting two disjoint groups together counts their union. */
  lemma {:induction false} CountUnion(s: Store, order: seq<string>, a: set<TaskStatus>, b: set<TaskStatus>)
    requires a !! b
    ensures s.CountIn(order, a + b) == s.CountIn(order, a) + s.CountIn(order, b)
  {
    if order == [] {
    } else {
      CountUnion(s, order[1..], a, b);
    }
  }

  const ALL_STATES: set<TaskStatus> :=
    {CREATED, PARTITIONED, QUEUED, ASSIGNED, RUNNING, COMPLETED, FAILED, VALIDATED, STORED}

  lemma {:induction false} CountAll(s: Store, order: seq<string>)
    requires forall k :: k in order ==> k in s.tasks
    ensures s.CountIn(order, ALL_STATES) == |order|
  {
    if order == [] {
    } else {
      assert order[0] in order;
      assert forall k :: k in order[1..] ==> k in order;
      CountAll(s, order[1..]);
      var status := s.tasks[order[0]].status;
      assert status in ALL_STATES by {
        match status {
          case CREATED | PARTITIONED | QUEUED | ASSIGNED | RUNNING | COMPLETED | FAILED | VALIDATED | STORED =>
        }
      }
    }
  }

  lemma {:induction false} CountAppend(s: Store, a: seq<string>, b: seq<string>, group: set<TaskStatus>)
    ensures s.CountIn(a + b, group) == s.CountIn(a, group) + s.CountIn(b, group)
  {
    if a == [] {
      assert a + b == b;
    } else {
      assert (a + b)[1..] == a[1..] + b;
      CountAppend(s, a[1..], b, group);
    }
  }

  /** The count of one state, as the status table reports it. */
  function StatusCount(s: Store, status: TaskStatus): nat {
    s.CountIn(s.taskOrder, {status})
  }

  /**
   The status table and the summary tell the same story: the table adds up to
   the number of tasks, and the summary's three totals are sums of its rows.
   */
  lemma SummaryAgreesWithCounts(s: Store)
    requires s.WellFormed()
    ensures |s.taskOrder| ==
            StatusCount(s, CREATED) + StatusCount(s, PARTITIONED) + StatusCount(s, QUEUED)
            + StatusCount(s, ASSIGNED) + StatusCount(s, RUNNING) + StatusCount(s, COMPLETED)
            + StatusCount(s, FAILED) + StatusCount(s, VALIDATED) + StatusCount(s, STORED)
    ensures s.CountIn(s.taskOrder, DONE_STATES) ==
            StatusCount(s, COMPLETED) + StatusCount(s, VALIDATED) + StatusCount(s, STORED)
    ensures s.CountIn(s.taskOrder, SETTLED_STATES) ==
            StatusCount(s, VALIDATED) + StatusCount(s, STORED)
  {
    var o := s.taskOrder;
    CountAll(s, o);
    CountUnion(s, o, {VALIDATED}, {STORED});
    assert SETTLED_STATES == {VALIDATED} + {STORED};
    CountUnion(s, o, {COMPLETED}, SETTLED_STATES);
    assert DONE_STATES == {COMPLETED} + SETTLED_STATES;
    CountUnion(s, o, {FAILED}, DONE_STATES);
    var late := {FAILED} + DONE_STATES;
    CountUnion(s, o, {RUNNING}, late);
    CountUnion(s, o, {ASSIGNED}, {RUNNING} + late);
    CountUnion(s, o, {QUEUED}, {ASSIGNED} + ({RUNNING} + late));
    CountUnion(s, o, {PARTITIONED}, {QUEUED} + ({ASSIGNED} + ({RUNNING} + late)));
    CountUnion(s, o, {CREATED}, {PARTITIONED} + ({QUEUED} + ({ASSIGNED} + ({RUNNING} + late))));
    assert ALL_STATES == {CREATED} + ({PARTITIONED} + ({QUEUED} + ({ASSIGNED} + ({RUNNING} + late))));
  }

  /** The store object that every agent shares. */
  class TaskStore {
    var tasks: map<string, Task>
    var taskOrder: seq<string>
    var workers: map<string, WorkerStatus>
    var workerOrder: seq<string>
    var history: seq<ExecutionRecord>
    var failureLogs: seq<FailureLog>
    var totalRetries: nat

    ghost function View(): Store
      reads this
    {
      Store(tasks, taskOrder, workers, workerOrder, history, failureLogs, totalRetries)
    }

    constructor ()
      ensures View() == Store(map[], [], map[], [], [], [], 0)
    {
      tasks, taskOrder := map[], [];
      workers, workerOrder := map[], [];
      history, failureLogs, totalRetries := [], [], 0;
    }

    method AddTask(task: Task)
      modifies this
      ensures View() == old(View()).AddTask(task)
      ensures tasks == old(tasks)[task.spec.taskId := task]
      ensures taskOrder == old(taskOrder) + if task.spec.taskId in old(tasks) then [] else [task.spec.taskId]
      ensures old(View()).WellFormed() ==> View().WellFormed()
    {
      var id := task.spec.taskId;
      if id !in tasks {
        taskOrder := taskOrder + [id];
      }
      tasks := tasks[id := task];
    }

    method UpdateTask(id: string, change: Task -> Task) returns (r: Option<Task>)
      modifies this`tasks
      ensures View() == old(View()).UpdateTask(id, change)
      ensures tasks == if id in old(tasks) then old(tasks)[id := change(old(tasks)[id])] else old(tasks)
      ensures r == if id in old(tasks) then Some(change(old(tasks)[id])) else None
    {
      if id !in tasks {
        return None;
      }
      tasks := tasks[id := change(tasks[id])];
      r := Some(tasks[id]);
    }

    method GetTask(id: string) returns (r: Option<Task>)
      ensures r == if id in tasks then Some(tasks[id]) else None
    {
      r := if id in tasks then Some(tasks[id]) else None;
    }

    method GetTasksByStatus(status: TaskStatus) returns (r: seq<string>)
      ensures r == View().TasksByStatus(status)
      ensures forall id :: id in r <==> id in taskOrder && id in tasks && tasks[id].status == status
      ensures exists positions :: Picks(r, taskOrder, positions)
    {
      r := [];
      ghost var keep := View().StatusIs(status);
      for i := 0 to |taskOrder|
        invariant r == Filter(taskOrder[..i], keep)
      {
        assert taskOrder[..i + 1] == taskOrder[..i] + [taskOrder[i]];
        FilterAppend(taskOrder[..i], [taskOrder[i]], keep);
        if taskOrder[i] in tasks && tasks[taskOrder[i]].status == status {
          r := r + [taskOrder[i]];
        }
      }
      assert taskOrder[..|taskOrder|] == taskOrder;
      forall id
        ensures id in r <==> id in taskOrder && keep(id)
      {
        FilterMember(taskOrder, keep, id);
      }
      FilterPicks(taskOrder, keep);
    }

    method AreDependenciesMet(spec: TaskSpec) returns (met: bool)
      ensures met <==> View().DependenciesMet(spec)
      ensures met <==> forall d :: d in spec.dependencies ==> d in tasks && tasks[d].status in {VALIDATED, STORED}
    {
      for i := 0 to |spec.dependencies|
        invariant forall k :: 0 <= k < i ==> View().Settled(spec.dependencies[k])
      {
        var dep := spec.dependencies[i];
        if dep !in tasks || tasks[dep].status !in {VALIDATED, STORED} {
          return false;
        }
      }
      return true;
    }

    method RegisterWorker(worker: WorkerStatus)
      modifies this
      ensures View() == old(View()).RegisterWorker(worker)
      ensures old(View()).WellFormed() ==> View().WellFormed()
    {
      if worker.workerId !in workers {
        workerOrder := workerOrder + [worker.workerId];
      }
      workers := workers[worker.workerId := worker];
    }

    method UpdateWorker(id: string, change: WorkerStatus -> WorkerStatus)
      modifies this`workers
      ensures View() == old(View()).UpdateWorker(id, change)
    {
      if id in workers {
        workers := workers[id := change(workers[id])];
      }
    }

    method GetWorker(id: string) returns (r: Option<WorkerStatus>)
      ensures r == if id in workers then Some(workers[id]) else None
    {
      r := if id in workers then Some(workers[id]) else None;
    }

    /** Scans the candidates in order; only a strictly smaller load replaces the choice. */
    method GetLeastLoadedWorker(workerType: string) returns (r: Option<string>)
      ensures r == View().LeastLoaded(workerOrder, workerType)
    {
      r := None;
      for i := 0 to |workerOrder|
        invariant r == View().LeastLoaded(workerOrder[..i], workerType)
      {
        var w := workerOrder[i];
        assert workerOrder[..i + 1] == workerOrder[..i] + [w];
        LeastLoadedAppend(View(), workerOrder[..i], w, workerType);
        if w in workers && workers[w].workerType == workerType && workers[w].status != Offline {
          if r.None? || workers[w].loadPct < workers[r.value].loadPct {
            r := Some(w);
          }
        }
      }
      assert workerOrder[..|workerOrder|] == workerOrder;
    }

    method AddExecutionRecord(record: ExecutionRecord)
      modifies this`history
      ensures View() == old(View()).(history := old(history) + [record])
    {
      history := history + [record];
    }

    method AddFailureLog(log: FailureLog)
      modifies this`failureLogs
      ensures View() == old(View()).(failureLogs := old(failureLogs) + [log])
    {
      failureLogs := failureLogs + [log];
    }

    method IncrementRetries()
      modifies this`totalRetries
      ensures View() == old(View()).(totalRetries := old(totalRetries) + 1)
    {
      totalRetries := totalRetries + 1;
    }

    method CountTasks(group: set<TaskStatus>) returns (n: nat)
      ensures n == View().CountIn(taskOrder, group)
    {
      n := 0;
      for i := 0 to |taskOrder|
        invariant n == View().CountIn(taskOrder[..i], group)
      {
        assert taskOrder[..i + 1] == taskOrder[..i] + [taskOrder[i]];
        CountAppend(View(), taskOrder[..i], [taskOrder[i]], group);
        if taskOrder[i] in tasks && tasks[taskOrder[i]].status in group {
          n := n + 1;
        }
      }
      assert taskOrder[..|taskOrder|] == taskOrder;
    }

    /** The average of the execution times stored so far. */
    method AverageLatency() returns (mean: real)
      ensures mean == Mean(View().ExecutionTimes(taskOrder))
    {
      var total, count := 0, 0;
      for i := 0 to |taskOrder|
        invariant count == |View().ExecutionTimes(taskOrder[..i])|
        invariant total == TotalTime(View().ExecutionTimes(taskOrder[..i]))
      {
        var id := taskOrder[i];
        assert taskOrder[..i + 1] == taskOrder[..i] + [id];
        TimesAppend(View(), taskOrder[..i], [id]);
        TotalTimeAppend(View().ExecutionTimes(taskOrder[..i]), View().ExecutionTimes([id]));
        if id in tasks && tasks[id].executionTime.Some? {
          total, count := total + tasks[id].executionTime.value, count + 1;
        }
      }
      assert taskOrder[..|taskOrder|] == taskOrder;
      mean := Quotient(total, count);
    }

    /** The summary, `elapsed` seconds after the start. */
    method GetSummary(elapsed: real) returns (r: SystemSummary)
      requires View().WellFormed()
      ensures r.avgLatency == Mean(View().ExecutionTimes(taskOrder))
      ensures r.throughput == Throughput(r.completed, elapsed)
      ensures r.tasksTotal == |taskOrder| && r.retries == totalRetries
      ensures r.completed ==
              StatusCount(View(), COMPLETED) + StatusCount(View(), VALIDATED) + StatusCount(View(), STORED)
      ensures r.failed == StatusCount(View(), FAILED)
      ensures r.validated == StatusCount(View(), VALIDATED) + StatusCount(View(), STORED)
      ensures r.validated <= r.completed && r.completed + r.failed <= r.tasksTotal
      ensures r.systemHealth == HealthOf(r.failed, r.tasksTotal)
    {
      SummaryAgreesWithCounts(View());
      var completed := CountTasks(DONE_STATES);
      var failed := CountTasks({FAILED});
      var validated := CountTasks(SETTLED_STATES);
      var total := |taskOrder|;
      var health := Stable;
      if total > 0 && failed * 100 > 30 * total {
        health := Critical;
      } else if total > 0 && failed * 100 > 10 * total {
        health := Degraded;
      }
      var latency := AverageLatency();
      r := SystemSummary(
        total, completed, failed, validated, totalRetries, latency, Throughput(completed, elapsed), health);
    }

    /** The status table: a row for every state some task is in, and no other rows. */
    method GetTasksByStatusCounts() returns (counts: map<TaskStatus, nat>)
      requires View().WellFormed()
      ensures forall status :: status in counts <==> StatusCount(View(), status) > 0
      ensures forall status :: status in counts ==> counts[status] == StatusCount(View(), status)
    {
      counts := map[];
      for i := 0 to |taskOrder|
        invariant forall status :: status in counts <==> View().CountIn(taskOrder[..i], {status}) > 0
        invariant forall status :: status in counts ==> counts[status] == View().CountIn(taskOrder[..i], {status})
      {
        assert taskOrder[..i + 1] == taskOrder[..i] + [taskOrder[i]];
        var own := tasks[taskOrder[i]].status;
        forall status
          ensures View().CountIn(taskOrder[..i + 1], {status}) ==
                  View().CountIn(taskOrder[..i], {status}) + if status == own then 1 else 0
        {
          CountAppend(View(), taskOrder[..i], [taskOrder[i]], {status});
        }
        counts := counts[own := (if own in counts then counts[own] else 0) + 1];
      }
      assert taskOrder[..|taskOrder|] == taskOrder;
    }
  }
}
