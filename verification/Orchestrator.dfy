/**
 backend/main.py as an object: the shared agents, the live coroutines, and one
 method for every stretch of code that runs without suspension.
 */
module Orchestration {
  import opened Collections
  import opened Models
  import opened TaskStores
  import opened MemoryQueues
  import opened LoadBalancers
  import opened Schedulers
  import opened RetryAgents
  import opened Critics
  import opened Planners
  import opened Pipelines
  import opened Lifecycle
  import opened Termination
  import opened Overlap
  import opened Workloads

  // ---- Earlier placements do not influence scheduling ----

  function Shifted(d: Desk, earlier: seq<Placement>): Desk {
    d.(results := earlier + d.results)
  }

  lemma PlaceShifts(d: Desk, task: TaskSpec, earlier: seq<Placement>)
    requires d.Usable()
    ensures Shifted(d, earlier).Usable() && Place(Shifted(d, earlier), task) == Shifted(Place(d, task), earlier)
  {
    assert earlier + d.results + [PlacementOf(d, task)] == earlier + (d.results + [PlacementOf(d, task)]);
  }

  lemma {:induction false} PassShifts(d: Desk, todo: seq<TaskSpec>, earlier: seq<Placement>)
    requires d.Usable()
    ensures Shifted(d, earlier).Usable() && Pass(Shifted(d, earlier), todo) == Shifted(Pass(d, todo), earlier)
    decreases |todo|
  {
    if todo == [] {
    } else {
      if d.Ready(todo[0]) {
        PlaceShifts(d, todo[0], earlier);
        PassShifts(Place(d, todo[0]), todo[1..], earlier);
      } else {
        PassShifts(d.(pending := d.pending + [todo[0]]), todo[1..], earlier);
      }
    }
  }

  lemma {:induction false} SettleShifts(d: Desk, earlier: seq<Placement>)
    requires d.Usable()
    ensures Shifted(d, earlier).Usable() && Settle(Shifted(d, earlier)) == Shifted(Settle(d), earlier)
    decreases |d.pending|
  {
    var empty := d.(pending := []);
    PassShifts(empty, d.pending, earlier);
    var r := Pass(empty, d.pending);
    if |r.results| <= |d.results| {
    } else {
      SettleShifts(r, earlier);
    }
  }

  lemma {:induction false} PassKeepsKeys(d: Desk, todo: seq<TaskSpec>)
    requires d.Usable()
    ensures Pass(d, todo).store.tasks.Keys == d.store.tasks.Keys
    decreases |todo|
  {
    if todo == [] {
    } else {
      PassKeepsKeys(if d.Ready(todo[0]) then Place(d, todo[0]) else d.(pending := d.pending + [todo[0]]), todo[1..]);
    }
  }

  lemma {:induction false} SettleKeepsKeys(d: Desk)
    requires d.Usable()
    ensures Settle(d).store.tasks.Keys == d.store.tasks.Keys
    decreases |d.pending|
  {
    var empty := d.(pending := []);
    PassKeepsKeys(empty, d.pending);
    var r := Pass(empty, d.pending);
    if |r.results| <= |d.results| {
    } else {
      SettleKeepsKeys(r);
    }
  }

  /** The system with the tasks of one more workload stored. */
  function Stored(s: System, plan: seq<TaskSpec>): System {
    s.(desk := s.desk.(store := AddAll(s.desk.store, plan)))
  }

  /** The system after the scheduler has seen these tasks and placed what is ready. */
  function Scheduled(s: System, plan: seq<TaskSpec>): System
    requires s.desk.Usable()
  {
    s.(desk := Settle(s.desk.(pending := s.desk.pending + plan)))
  }

  /** The system with a new coroutine for every QUEUED task. */
  function Spawned(s: System): System {
    s.(pipes := s.pipes + Starts(s.Store().TasksByStatus(QUEUED)))
  }

  /** The three parts of submitting a workload, with nobody in between. */
  function Submitted(s: System, plan: seq<TaskSpec>): System
    requires s.desk.Usable()
  {
    Spawned(Scheduled(Stored(s, plan), plan))
  }

  ghost predicate IsRunTo(
    settings: Settings, pool: Store, broker: Broker<Message>, plan: seq<TaskSpec>, run: seq<System>, s: System)
  {
    IsRun(settings, pool, broker, plan, run) && run[|run| - 1] == s
  }

  lemma StepIsNext(settings: Settings, s: System, a: Action)
    requires Enabled(s, a)
    ensures Next(settings, s, Apply(settings, s, a))
  {
    assert StepBy(settings, s, a, Apply(settings, s, a));
  }

  lemma OneStepFurther(
    settings: Settings, pool: Store, broker: Broker<Message>, plan: seq<TaskSpec>, run: seq<System>, s: System,
    s': System)
    requires IsRunTo(settings, pool, broker, plan, run, s) && Next(settings, s, s')
    ensures IsRunTo(settings, pool, broker, plan, run + [s'], s')
    ensures MeasureOf(settings, s').Below(MeasureOf(settings, s))
  {
    RunKeepsLifecycle(settings, pool, broker, plan, run, |run| - 1);
    StepDecreases(settings, s, s');
    RunExtends(settings, pool, broker, plan, run, s');
  }

  lemma QueuedAreStored(s: Store)
    ensures forall k :: 0 <= k < |s.TasksByStatus(QUEUED)| ==> s.TasksByStatus(QUEUED)[k] in s.tasks
  {
    forall k | 0 <= k < |s.TasksByStatus(QUEUED)|
      ensures s.TasksByStatus(QUEUED)[k] in s.tasks
    {
      FilterMember(s.taskOrder, s.StatusIs(QUEUED), s.TasksByStatus(QUEUED)[k]);
    }
  }

  class Orchestrator {
    const store: TaskStore
    const queue: InMemoryQueue<Message>
    const scheduler: Scheduler
    const balancer: LoadBalancer
    const retryAgent: RetryAgent
    const critic: Critic
    var pipes: seq<Pipe>
    ghost var log: seq<Event>
    ghost var placements: seq<Placement>

    ghost function View(): System
      reads this, store, queue, scheduler
    {
      System(Desk(store.View(), queue.View(), scheduler.partitionCounter, scheduler.pendingTasks, placements),
             pipes, log)
    }

    /** All agents share one store, and every coroutine works on a stored task. */
    ghost predicate Valid()
      reads this, store, queue, scheduler
    {
      && scheduler.store == balancer.store == retryAgent.store == critic.store == store
      && scheduler.queue == queue && scheduler.Valid()
      && forall k :: 0 <= k < |pipes| ==> pipes[k].task in store.tasks
    }

    constructor (settings: Settings)
      ensures Valid() && fresh(store) && fresh(queue) && fresh(scheduler)
      ensures retryAgent.settings == settings
      ensures View() == System(Desk(Store(map[], [], map[], [], [], [], 0), Broker(map[], 4), map[], [], []), [], [])
    {
      var s := new TaskStore();
      var q := new InMemoryQueue<Message>(4);
      store, queue := s, q;
      scheduler := new Scheduler(s, q);
      balancer := new LoadBalancer(s);
      retryAgent := new RetryAgent(s, settings);
      critic := new Critic(s);
      pipes, log, placements := [], [], [];
    }

    /** Moves coroutine `i` to its next suspension point. */
    method Move(i: nat, pc: Pc, ghost event: Event)
      requires i < |pipes|
      modifies this`pipes, this`log
      ensures pipes == old(pipes)[i := Pipe(old(pipes)[i].task, pc)] && log == old(log) + [event]
    {
      pipes := pipes[i := pipes[i].(pc := pc)];
      log := log + [event];
    }

    method Assign(i: nat)
      requires Valid() && i < |pipes| && (pipes[i].pc.Start? || pipes[i].pc.Waiting?)
      modifies this`pipes, this`log, store
      ensures Valid() && View() == AssignStep(old(View()), i)
    {
      var id := pipes[i].task;
      ghost var before := store.View();
      var chosen := balancer.AssignWorker(store.tasks[id].spec);
      if chosen.None? {
        if pipes[i].pc.Start? {
          Move(i, Waiting, WorkerUnavailable(id));
        } else {
          Move(i, Done, TaskDeferred(id));
        }
      } else {
        var w := chosen.value;
        Move(i, Assigned(w), TaskAssigned(id, w, before.workers[w].loadPct + LOAD_STEP > FULL_LOAD));
      }
    }

    method Begin(i: nat)
      requires Valid() && i < |pipes| && pipes[i].pc.Assigned?
      modifies this`pipes, this`log, store
      ensures Valid() && View() == BeginStep(old(View()), i)
    {
      var id, w := pipes[i].task, pipes[i].pc.worker;
      var _ := store.UpdateTask(id, (t: Task) => t.(status := RUNNING));
      Move(i, Running(w), TaskStarted(id, w));
    }

    method Finish(i: nat, result: TaskResult)
      requires Valid() && i < |pipes| && pipes[i].pc.Running?
      modifies this`pipes, this`log, store
      ensures Valid() && View() == FinishStep(old(View()), i, result)
    {
      var id, w := pipes[i].task, pipes[i].pc.worker;
      ghost var floored := Floors(store.View(), w);
      if result.failed {
        balancer.ReleaseWorker(w, false);
        var _ := store.UpdateTask(id, (t: Task) =>
          t.(status := FAILED, executionTime := Some(result.executionTime), errorMessage := result.error));
        Move(i, Failed(result), TaskFailed(id, w, floored));
      } else {
        balancer.ReleaseWorker(w, true);
        var _ := store.UpdateTask(id, (t: Task) =>
          t.(status := COMPLETED, executionTime := Some(result.executionTime), result := result.result));
        store.AddExecutionRecord(ExecutionRecord(id, w, result.executionTime));
        Move(i, Completed(result), TaskCompleted(id, w, floored));
      }
    }

    method Recover(i: nat, jitter: real)
      requires Valid() && i < |pipes| && pipes[i].pc.Failed?
      modifies this`pipes, this`log, store
      ensures Valid() && View() == RecoverStep(retryAgent.settings, old(View()), i, jitter)
    {
      var id := pipes[i].task;
      var decision := retryAgent.HandleFailure(id, store.tasks[id].retryCount, pipes[i].pc.result, jitter);
      match decision {
        case DeadLetter(_) => Move(i, Done, DeadLettered(id));
        case Retry(_, delay) => Move(i, Backoff(delay), RetryScheduled(id));
      }
    }

    /** The back-off is over: a new coroutine takes over. */
    method Respawn(i: nat)
      requires Valid() && i < |pipes| && pipes[i].pc.Backoff?
      modifies this`pipes
      ensures Valid() && View() == RespawnStep(old(View()), i)
    {
      pipes := pipes[i := pipes[i].(pc := Done)] + [Pipe(pipes[i].task, Start)];
    }

    method Judge(i: nat, variance: int)
      requires Valid() && i < |pipes| && pipes[i].pc.Completed?
      modifies this`pipes, this`log, store
      ensures Valid() && View() == JudgeStep(old(View()), i, variance)
    {
      var id := pipes[i].task;
      var valid := critic.Validate(store.tasks[id].spec, pipes[i].pc.result, variance);
      Move(i, Judged, if valid then TaskValidated(id) else ValidationFailed(id));
    }

    /** Spawns a coroutine for every QUEUED task. */
    method ProcessQueued()
      requires Valid()
      modifies this`pipes
      ensures Valid() && View() == Spawned(old(View()))
    {
      var queued := store.GetTasksByStatus(QUEUED);
      for k := 0 to |queued|
        invariant pipes == old(pipes) + Starts(queued[..k])
      {
        pipes := pipes + [Pipe(queued[k], Start)];
        assert queued[..k + 1] == queued[..k] + [queued[k]];
      }
      assert queued[..|queued|] == queued;
      QueuedAreStored(store.View());
    }

    method Wake(i: nat)
      requires Valid() && i < |pipes| && pipes[i].pc.Judged?
      modifies this, store, queue, scheduler
      ensures Valid() && View() == WakeStep(old(View()), i)
    {
      ghost var desk := scheduler.View();
      pipes := pipes[i := pipes[i].(pc := Done)];
      var results := scheduler.RetryPending();
      SettleKeepsKeys(desk);
      SettleShifts(desk, placements);
      assert Shifted(desk, placements) == old(View()).desk;
      placements := placements + results;
      assert View().desk == Shifted(scheduler.View().(results := results), old(placements));
      ProcessQueued();
    }

    /** Start-up: the queue's topics, then the workers. */
    method StartUp(cpuCount: nat, ioCount: nat)
      requires Valid() && View() == System(Desk(NOTHING, Broker(map[], 4), map[], [], []), [], [])
      modifies store, queue
      ensures Valid()
      ensures View() == System(Desk(StartUpPool(cpuCount, ioCount), StartUpBroker(), map[], [], []), [], [])
    {
      CreateTopics();
      balancer.RegisterWorkers(cpuCount, ioCount);
    }

    method CreateTopics()
      requires queue.Valid() && queue.View() == Broker(map[], 4)
      modifies queue
      ensures queue.Valid() && queue.View() == StartUpBroker()
    {
      queue.CreateTopic(TOPIC_QUEUE_CPU, 4);
      queue.CreateTopic(TOPIC_QUEUE_IO, 4);
      queue.CreateTopic(TOPIC_RESULTS, 4);
      queue.CreateTopic(TOPIC_FAILURES, 4);
      queue.CreateTopic(TOPIC_MONITORING, 4);
    }

    method AddTasks(tasks: seq<TaskSpec>)
      requires Valid()
      modifies store
      ensures Valid() && store.View() == AddAll(old(store.View()), tasks)
    {
      for k := 0 to |tasks|
        invariant Valid() && store.View() == AddFirst(old(store.View()), tasks, k)
      {
        store.AddTask(NewTask(tasks[k]));
      }
    }

    /** First part of a submission: the plan is made and stored. */
    method StorePlan(totalChunks: nat, priority: int) returns (tasks: seq<TaskSpec>)
      requires Valid()
      modifies store
      ensures Valid() && tasks == PlanOf(totalChunks, priority) && View() == Stored(old(View()), tasks)
    {
      tasks := Plan(totalChunks, priority);
      AddTasks(tasks);
    }

    /** Second part: the scheduler takes the tasks on. */
    method ScheduleTasks(tasks: seq<TaskSpec>)
      requires Valid()
      modifies this`placements, store, queue, scheduler
      ensures Valid() && View() == Scheduled(old(View()), tasks)
    {
      ghost var desk := scheduler.View().(pending := scheduler.pendingTasks + tasks);
      var results := scheduler.Schedule(tasks);
      SettleKeepsKeys(desk);
      SettleShifts(desk, placements);
      assert Shifted(desk, placements) == old(View()).desk.(pending := old(scheduler.pendingTasks) + tasks);
      placements := placements + results;
      assert View().desk == Shifted(scheduler.View().(results := results), old(placements));
    }

    /** The three parts in a row; the third spawns what is queued. */
    method RunWorkload(totalChunks: nat, priority: int)
      requires Valid()
      modifies this, store, queue, scheduler
      ensures Valid() && View() == Submitted(old(View()), PlanOf(totalChunks, priority))
    {
      var tasks := StorePlan(totalChunks, priority);
      ScheduleTasks(tasks);
      ProcessQueued();
    }

    /** Lets coroutine `i` run up to its next suspension point. */
    method Resume(i: nat, result: TaskResult, jitter: real, variance: int)
      requires Valid() && i < |pipes| && Live(pipes[i]) && IsJitter(jitter) && IsVariance(variance)
      requires pipes[i].pc.Running? ==> result.taskId == pipes[i].task && result.workerId == pipes[i].pc.worker
      modifies this, store, queue, scheduler
      ensures Valid() && Next(retryAgent.settings, old(View()), View())
    {
      ghost var s := View();
      match pipes[i].pc {
        case Start => Assign(i); StepIsNext(retryAgent.settings, s, Action.Assign(i));
        case Waiting => Assign(i); StepIsNext(retryAgent.settings, s, Action.Assign(i));
        case Assigned(_) => Begin(i); StepIsNext(retryAgent.settings, s, Action.Begin(i));
        case Running(_) => Finish(i, result); StepIsNext(retryAgent.settings, s, Action.Finish(i, result));
        case Failed(_) => Recover(i, jitter); StepIsNext(retryAgent.settings, s, Action.Recover(i, jitter));
        case Backoff(_) => Respawn(i); StepIsNext(retryAgent.settings, s, Action.Respawn(i));
        case Completed(_) => Judge(i, variance); StepIsNext(retryAgent.settings, s, Action.Judge(i, variance));
        case Judged => Wake(i); StepIsNext(retryAgent.settings, s, Action.Wake(i));
      }
    }

    /** Resumes one live coroutine, whichever it may be, with whatever the outside world supplies. */
    method ResumeSome()
      requires Valid() && !View().Quiescent()
      modifies this, store, queue, scheduler
      ensures Valid() && Next(retryAgent.settings, old(View()), View())
    {
      var i :| 0 <= i < |pipes| && Live(pipes[i]);
      var worker := if pipes[i].pc.Running? then pipes[i].pc.worker else "";
      assert IsJitter(0.0) && IsVariance(3);
      var jitter: real :| IsJitter(jitter);
      var variance: int :| IsVariance(variance);
      var failed: bool, executionTime: int, payload: Option<Payload>, error: Option<string> := *, *, *, *;
      Resume(i, TaskResult(pipes[i].task, worker, failed, executionTime, payload, error), jitter, variance);
    }

    /**
     The event loop: resumes live coroutines until there is none. It ends, and
     what it did is a run of the step system; `past` is the run so far.
     */
    method RunToRest(
      ghost pool: Store, ghost broker: Broker<Message>, ghost plan: seq<TaskSpec>, ghost past: seq<System>)
      returns (ghost run: seq<System>)
      requires Valid() && IsRunTo(retryAgent.settings, pool, broker, plan, past, View())
      modifies this, store, queue, scheduler
      ensures Valid() && IsRunTo(retryAgent.settings, pool, broker, plan, run, View())
      ensures past <= run && View().Quiescent()
    {
      run := past;
      ghost var measure := MeasureOf(retryAgent.settings, View());
      while exists i :: 0 <= i < |pipes| && Live(pipes[i])
        invariant Valid() && IsRunTo(retryAgent.settings, pool, broker, plan, run, View()) && past <= run
        invariant measure == MeasureOf(retryAgent.settings, View())
        decreases measure.untaken, measure.retries, measure.active, measure.queued
      {
        ghost var s := View();
        ResumeSome();
        OneStepFurther(retryAgent.settings, pool, broker, plan, run, s, View());
        run := run + [View()];
        measure := MeasureOf(retryAgent.settings, View());
      }
    }
  }

  /**
   On a system that has just started up, submitting a workload is where runs
   begin; nobody can run between its parts, since there is no coroutine yet.
   */
  lemma SubmittedIsInitial(cpuCount: nat, ioCount: nat, n: nat, priority: int)
    ensures var started := System(Desk(StartUpPool(cpuCount, ioCount), StartUpBroker(), map[], [], []), [], []);
            var stored := Stored(started, PlanOf(n, priority));
            && started.desk.Usable() && stored.Quiescent() && Scheduled(stored, PlanOf(n, priority)).Quiescent()
            && Initial(Submitted(started, PlanOf(n, priority)),
                       StartUpPool(cpuCount, ioCount), StartUpBroker(), PlanOf(n, priority))
  {
    var pool := StartUpPool(cpuCount, ioCount);
    StartUpIsFresh(cpuCount, ioCount);
    PlanIsValid(n, priority);
    var plan := PlanOf(n, priority);
    assert [] + plan == plan;
  }

  /** One workload from an empty process to rest: a run of the step system, whatever happens on the way. */
  method Serve(settings: Settings, cpuCount: nat, ioCount: nat, totalChunks: nat, priority: int)
    returns (o: Orchestrator, ghost run: seq<System>)
    ensures fresh(o) && o.Valid() && o.View().Quiescent()
    ensures IsRunTo(settings, StartUpPool(cpuCount, ioCount), StartUpBroker(), PlanOf(totalChunks, priority),
                    run, o.View())
  {
    o := new Orchestrator(settings);
    o.StartUp(cpuCount, ioCount);
    o.RunWorkload(totalChunks, priority);
    SubmittedIsInitial(cpuCount, ioCount, totalChunks, priority);
    run := o.RunToRest(StartUpPool(cpuCount, ioCount), StartUpBroker(), PlanOf(totalChunks, priority), [o.View()]);
  }
}
