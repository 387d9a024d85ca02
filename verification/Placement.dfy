/** Round-robin placement and queue offsets, composed over whole runs. */
module PlacementInRuns {
  import opened Collections
  import opened Models
  import opened TaskStores
  import opened MemoryQueues
  import opened LoadBalancers
  import opened Schedulers
  import opened Pipelines
  import opened Lifecycle
  import opened RetryAgents
  import opened Workloads

  lemma StoreDoesNotMatter(d: Desk, store: Store)
    requires PlacementLaw(d)
    ensures PlacementLaw(d.(store := store))
  {
  }

  lemma StepKeepsPlacement(settings: Settings, s: System, s': System)
    requires Shape(s) && PlacementLaw(s.desk) && Next(settings, s, s')
    ensures PlacementLaw(s'.desk)
  {
    var a :| StepBy(settings, s, a, s');
    match a {
      case Wake(i) => SettleKeepsLaw(s.desk);
      case Respawn(i) =>
      case _ =>
        var pc, store, status, event := StepShape(settings, s, a);
        StoreDoesNotMatter(s.desk, store);
    }
  }

  lemma EmptyTopicIsRoundRobin(name: string)
    ensures RoundRobin(NewTopic(PARTITIONS), name, 0, [])
  {
  }

  /** The queue as start-up leaves it follows the law with nothing sent. */
  lemma StartUpFollowsLaw(pool: Store, plan: seq<TaskSpec>)
    ensures PlacementLaw(Desk(pool, StartUpBroker(), map[], plan, []))
  {
    EmptyTopicIsRoundRobin(TOPIC_QUEUE_CPU);
    EmptyTopicIsRoundRobin(TOPIC_QUEUE_IO);
  }

  lemma PlacementPassesOn(
    settings: Settings, pool: Store, broker: Broker<Message>, plan: seq<TaskSpec>, run: seq<System>, j: nat)
    requires IsRun(settings, pool, broker, plan, run) && j + 1 < |run| && PlacementLaw(run[j].desk)
    ensures PlacementLaw(run[j + 1].desk)
  {
    RunKeepsShape(settings, pool, broker, plan, run, j);
    assert Next(settings, run[j], run[j + 1]);
    StepKeepsPlacement(settings, run[j], run[j + 1]);
  }

  /**
   In every reachable state, for everything placed so far: message k of a topic
   sits in partition k mod 4 at offset k div 4, so the recorded coordinates of
   every placement give back its position in the production order.
   */
  lemma RunKeepsPlacement(settings: Settings, pool: Store, plan: seq<TaskSpec>, run: seq<System>, k: nat)
    requires IsRun(settings, pool, StartUpBroker(), plan, run) && k < |run|
    ensures PlacementLaw(run[k].desk)
  {
    StartUpFollowsLaw(AddAll(pool, plan), plan);
    SettleKeepsLaw(Loaded(pool, StartUpBroker(), plan).desk);
    forall j | 0 <= j < |run| - 1 && PlacementLaw(run[j].desk)
      ensures PlacementLaw(run[j + 1].desk)
    {
      PlacementPassesOn(settings, pool, StartUpBroker(), plan, run, j);
    }
    HoldsAlong(run, (s: System) => PlacementLaw(s.desk), 0, k);
  }

  lemma {:induction false} MessageAt(results: seq<Placement>, i: nat)
    requires i < |results|
    ensures |MessagesOn(results[..i], results[i].topic)| < |MessagesOn(results, results[i].topic)|
    ensures MessagesOn(results, results[i].topic)[|MessagesOn(results[..i], results[i].topic)|] == results[i].message
  {
    var last := |results| - 1;
    if i < last {
      assert results[..last][..i] == results[..i];
      MessageAt(results[..last], i);
    } else {
      assert results[..i] == results[..last];
    }
  }

  /** Where a placement says it put a message, there the message is. */
  lemma PlacedIsThere(d: Desk, i: nat)
    requires PlacementLaw(d) && i < |d.results|
    ensures var p := d.results[i];
            && p.topic in d.broker.topics && p.partition < |d.broker.topics[p.topic].queues|
            && p.offset < |d.broker.topics[p.topic].queues[p.partition]|
            && d.broker.topics[p.topic].queues[p.partition][p.offset]
               == Envelope(p.offset, p.partition, p.topic, p.message)
  {
    var p := d.results[i];
    assert Recovered(d.results, i);
    MessageAt(d.results, i);
    var n := |MessagesOn(d.results[..i], p.topic)|;
    assert TopicLaw(d, p.topic);
    assert SitsAt(d.broker.topics[p.topic], p.topic, n, MessagesOn(d.results, p.topic)[n]);
    assert n / 4 == p.offset && n % 4 == p.partition;
  }

  // ---- Each task is sent out at most once, and its record says where ----

  /** The message tells of a task what its consumers need to know. */
  predicate TellsOf(m: Message, spec: TaskSpec) {
    && m.taskId == spec.taskId && m.description == spec.description && m.taskType == spec.taskType
    && m.priority == spec.priority && m.dependencies == spec.dependencies
  }

  /** The message is about the stored task, whose record carries the coordinates of its placement. */
  ghost predicate Recorded(s: Store, p: Placement) {
    var id := p.message.taskId;
    && id in s.tasks && TellsOf(p.message, s.tasks[id].spec)
    && s.tasks[id].kafkaTopic == Some(p.topic)
    && s.tasks[id].kafkaPartition == Some(p.partition)
    && s.tasks[id].kafkaOffset == Some(p.offset)
  }

  ghost predicate AllRecorded(s: Store, results: seq<Placement>) {
    forall i :: 0 <= i < |results| ==> Recorded(s, results[i])
  }

  ghost predicate AtMostOnce(ids: multiset<string>) {
    forall id :: ids[id] <= 1
  }

  lemma PlaceRecords(d: Desk, task: TaskSpec)
    requires d.Usable() && AllRecorded(d.store, d.results) && InStore(d.store, task)
    requires task.taskId !in PlacedIds(d.results)
    ensures AllRecorded(Place(d, task).store, Place(d, task).results)
  {
    var e := Place(d, task);
    forall i | 0 <= i < |e.results|
      ensures Recorded(e.store, e.results[i])
    {
      if i < |d.results| {
        assert Recorded(d.store, d.results[i]) && PlacedIds(d.results)[i] == d.results[i].message.taskId;
      }
    }
  }

  ghost predicate AllKnown(s: Store, tasks: seq<TaskSpec>) {
    forall k :: 0 <= k < |tasks| ==> InStore(s, tasks[k])
  }

  /** A task still to be looked at has not been sent out. */
  lemma NotSentYet(d: Desk, todo: seq<TaskSpec>)
    requires todo != [] && AtMostOnce(Accounted(d) + multiset(Ids(todo)))
    ensures todo[0].taskId !in PlacedIds(d.results)
  {
    IdsCons(todo);
    assert (Accounted(d) + multiset(Ids(todo)))[todo[0].taskId] <= 1;
  }

  /** Looking at the first task keeps the account, whether it goes out or is held back. */
  lemma AccountKept(d: Desk, todo: seq<TaskSpec>)
    requires d.Usable() && todo != []
    ensures Accounted(Place(d, todo[0])) + multiset(Ids(todo[1..])) == Accounted(d) + multiset(Ids(todo))
    ensures Accounted(d.(pending := d.pending + [todo[0]])) + multiset(Ids(todo[1..]))
            == Accounted(d) + multiset(Ids(todo))
  {
    IdsCons(todo);
    PlaceAccounts(d, todo[0]);
    HoldAccounts(d, todo[0]);
  }

  lemma KnownRest(s: Store, todo: seq<TaskSpec>)
    requires AllKnown(s, todo) && todo != []
    ensures InStore(s, todo[0]) && AllKnown(s, todo[1..])
  {
  }

  lemma PlaceKnows(d: Desk, task: TaskSpec, tasks: seq<TaskSpec>)
    requires d.Usable() && AllKnown(d.store, tasks)
    ensures AllKnown(Place(d, task).store, tasks)
  {
  }

  lemma {:induction false} PassRecords(d: Desk, todo: seq<TaskSpec>)
    requires d.Usable() && AllRecorded(d.store, d.results) && AllKnown(d.store, todo)
    requires AtMostOnce(Accounted(d) + multiset(Ids(todo)))
    ensures AllRecorded(Pass(d, todo).store, Pass(d, todo).results)
    decreases |todo|
  {
    if todo == [] {
    } else {
      KnownRest(d.store, todo);
      AccountKept(d, todo);
      if d.Ready(todo[0]) {
        NotSentYet(d, todo);
        PlaceRecords(d, todo[0]);
        PlaceKnows(d, todo[0], todo[1..]);
        PassRecords(Place(d, todo[0]), todo[1..]);
      } else {
        PassRecords(d.(pending := d.pending + [todo[0]]), todo[1..]);
      }
    }
  }

  lemma {:induction false} PassKnows(d: Desk, todo: seq<TaskSpec>)
    requires d.Usable() && AllKnown(d.store, d.pending) && AllKnown(d.store, todo)
    ensures AllKnown(Pass(d, todo).store, Pass(d, todo).pending)
    decreases |todo|
  {
    if todo == [] {
    } else {
      if d.Ready(todo[0]) {
        PassKnows(Place(d, todo[0]), todo[1..]);
      } else {
        PassKnows(d.(pending := d.pending + [todo[0]]), todo[1..]);
      }
    }
  }

  /** Scheduling records every placement and never sends a task out twice. */
  lemma {:induction false} SettleRecords(d: Desk)
    requires d.Usable() && AllRecorded(d.store, d.results) && AllKnown(d.store, d.pending) && AtMostOnce(Accounted(d))
    ensures AllRecorded(Settle(d).store, Settle(d).results)
    decreases |d.pending|
  {
    var empty := d.(pending := []);
    assert Ids(empty.pending) == [];
    assert Accounted(empty) + multiset(Ids(d.pending)) == Accounted(d);
    PassRecords(empty, d.pending);
    PassKnows(empty, d.pending);
    PassConserves(empty, d.pending);
    var r := Pass(empty, d.pending);
    if |r.results| <= |d.results| {
    } else {
      SettleRecords(r);
    }
  }

  ghost predicate SameCoordinates(t: Task, u: Task) {
    && t.spec == u.spec && t.kafkaTopic == u.kafkaTopic
    && t.kafkaPartition == u.kafkaPartition && t.kafkaOffset == u.kafkaOffset
  }

  lemma AssignKeepsCoordinates(s: Store, task: TaskSpec, id: string)
    requires id in s.tasks
    ensures id in AfterAssign(s, task).tasks && SameCoordinates(s.tasks[id], AfterAssign(s, task).tasks[id])
  {
  }

  lemma FinishKeepsCoordinates(s: System, i: nat, result: TaskResult, id: string)
    requires i < |s.pipes| && s.pipes[i].pc.Running? && id in s.Tasks()
    ensures id in FinishStep(s, i, result).Tasks()
    ensures SameCoordinates(s.Tasks()[id], FinishStep(s, i, result).Tasks()[id])
  {
  }

  lemma RecoverKeepsCoordinates(
    s: Store, settings: Settings, task: string, retry: nat, result: TaskResult, id: string)
    requires id in s.tasks && task in s.tasks
    ensures id in AfterFailure(s, settings, task, retry, result).tasks
    ensures SameCoordinates(s.tasks[id], AfterFailure(s, settings, task, retry, result).tasks[id])
  {
  }

  /** Only scheduling writes queue coordinates, and nothing rewrites what was planned. */
  lemma CoordinatesKept(settings: Settings, s: System, a: Action, id: string)
    requires Shape(s) && Enabled(s, a) && IsAdvance(a) && id in s.Tasks()
    ensures id in Apply(settings, s, a).Tasks()
    ensures SameCoordinates(s.Tasks()[id], Apply(settings, s, a).Tasks()[id])
  {
    match a {
      case Assign(i) => AssignKeepsCoordinates(s.Store(), s.Tasks()[s.pipes[i].task].spec, id);
      case Recover(i, jitter) =>
        RecoverKeepsCoordinates(s.Store(), settings, s.pipes[i].task, s.Tasks()[s.pipes[i].task].retryCount,
                                s.pipes[i].pc.result, id);
      case Finish(i, result) => FinishKeepsCoordinates(s, i, result, id);
      case _ =>
    }
  }

  lemma ApplyKeepsDesk(settings: Settings, s: System, a: Action)
    requires Enabled(s, a) && !a.Wake?
    ensures Apply(settings, s, a).desk == s.desk.(store := Apply(settings, s, a).Store())
  {
  }

  /** All ids are accounted for once, and every placement is recorded in the store. */
  ghost predicate QueueBooks(s: System, plan: seq<TaskSpec>) {
    && Accounted(s.desk) == multiset(Ids(plan))
    && AllKnown(s.Store(), s.desk.pending) && AllRecorded(s.Store(), s.desk.results)
  }

  lemma AdvanceKeepsQueueBooks(settings: Settings, s: System, a: Action, plan: seq<TaskSpec>)
    requires Shape(s) && QueueBooks(s, plan) && Enabled(s, a) && IsAdvance(a)
    ensures QueueBooks(Apply(settings, s, a), plan)
  {
    var s' := Apply(settings, s, a);
    ApplyKeepsDesk(settings, s, a);
    forall i | 0 <= i < |s'.desk.results|
      ensures Recorded(s'.Store(), s'.desk.results[i])
    {
      assert Recorded(s.Store(), s.desk.results[i]);
      CoordinatesKept(settings, s, a, s.desk.results[i].message.taskId);
    }
    forall k | 0 <= k < |s'.desk.pending|
      ensures InStore(s'.Store(), s'.desk.pending[k])
    {
      assert InStore(s.Store(), s.desk.pending[k]);
      CoordinatesKept(settings, s, a, s.desk.pending[k].taskId);
    }
  }

  lemma {:induction false} SettleKnows(d: Desk)
    requires d.Usable() && AllKnown(d.store, d.pending)
    ensures AllKnown(Settle(d).store, Settle(d).pending)
    decreases |d.pending|
  {
    var empty := d.(pending := []);
    PassKnows(empty, d.pending);
    var r := Pass(empty, d.pending);
    if |r.results| <= |d.results| {
    } else {
      SettleKnows(r);
    }
  }

  lemma {:induction false} CountDistinct(ids: seq<string>, id: string)
    requires Distinct(ids)
    ensures multiset(ids)[id] <= 1
  {
    if ids == [] {
    } else {
      CountDistinct(ids[1..], id);
      assert ids == [ids[0]] + ids[1..];
      if ids[0] == id {
        assert id !in ids[1..];
      }
    }
  }

  lemma DistinctAtMostOnce(ids: seq<string>)
    requires Distinct(ids)
    ensures AtMostOnce(multiset(ids))
  {
    forall id
      ensures multiset(ids)[id] <= 1
    {
      CountDistinct(ids, id);
    }
  }

  lemma ReleaseKeepsQueueBooks(s: System, plan: seq<TaskSpec>)
    requires s.desk.Usable() && Distinct(Ids(plan)) && QueueBooks(s, plan)
    ensures QueueBooks(Release(s), plan)
  {
    DistinctAtMostOnce(Ids(plan));
    SettleRecords(s.desk);
    SettleKnows(s.desk);
    SettleIsComplete(s.desk);
  }

  lemma StepKeepsQueueBooks(settings: Settings, s: System, s': System, plan: seq<TaskSpec>)
    requires Shape(s) && Distinct(Ids(plan)) && QueueBooks(s, plan) && Next(settings, s, s')
    ensures QueueBooks(s', plan)
  {
    var a :| StepBy(settings, s, a, s');
    match a {
      case Wake(i) => ReleaseKeepsQueueBooks(s.(pipes := s.pipes[i := s.pipes[i].(pc := Done)]), plan);
      case Respawn(i) =>
      case _ => AdvanceKeepsQueueBooks(settings, s, a, plan);
    }
  }

  lemma QueueBooksPassOn(
    settings: Settings, pool: Store, broker: Broker<Message>, plan: seq<TaskSpec>, run: seq<System>, j: nat)
    requires IsRun(settings, pool, broker, plan, run) && j + 1 < |run| && QueueBooks(run[j], plan)
    ensures QueueBooks(run[j + 1], plan)
  {
    RunKeepsShape(settings, pool, broker, plan, run, j);
    assert Next(settings, run[j], run[j + 1]);
    StepKeepsQueueBooks(settings, run[j], run[j + 1], plan);
  }

  lemma InitialQueueBooks(s: System, pool: Store, broker: Broker<Message>, plan: seq<TaskSpec>)
    requires Initial(s, pool, broker, plan)
    ensures QueueBooks(s, plan)
  {
    var loaded := Loaded(pool, broker, plan);
    AddAllEffect(pool, plan);
    assert PlacedIds(loaded.desk.results) == [];
    assert forall k :: 0 <= k < |plan| ==> IsStored(loaded.Store(), plan[k]);
    ReleaseKeepsQueueBooks(loaded, plan);
  }

  lemma RunKeepsQueueBooks(
    settings: Settings, pool: Store, broker: Broker<Message>, plan: seq<TaskSpec>, run: seq<System>, k: nat)
    requires IsRun(settings, pool, broker, plan, run) && k < |run|
    ensures QueueBooks(run[k], plan)
  {
    InitialQueueBooks(run[0], pool, broker, plan);
    forall j | 0 <= j < |run| - 1 && QueueBooks(run[j], plan)
      ensures QueueBooks(run[j + 1], plan)
    {
      QueueBooksPassOn(settings, pool, broker, plan, run, j);
    }
    HoldsAlong(run, (s: System) => QueueBooks(s, plan), 0, k);
  }

  lemma OnceMeansDistinct(ids: seq<string>)
    requires AtMostOnce(multiset(ids))
    ensures Distinct(ids)
  {
    forall i, j | 0 <= i < j < |ids|
      ensures ids[i] != ids[j]
    {
      assert ids == ids[..j] + ids[j..];
      assert multiset(ids)[ids[i]] == multiset(ids[..j])[ids[i]] + multiset(ids[j..])[ids[i]];
      assert ids[..j][i] == ids[i] && ids[j..][0] == ids[j];
    }
  }

  lemma AccountedOnce(d: Desk, ids: seq<string>)
    requires Accounted(d) == multiset(ids) && Distinct(ids)
    ensures Distinct(PlacedIds(d.results))
  {
    DistinctAtMostOnce(ids);
    forall id
      ensures multiset(PlacedIds(d.results))[id] <= 1
    {
      assert Accounted(d)[id] <= 1;
    }
    OnceMeansDistinct(PlacedIds(d.results));
  }

  /**
   In every reachable state, retries and overlapping coroutines included, the
   pending tasks and the placements together are the plan, each task once: no
   task is lost, and none is produced to the queue twice.
   */
  lemma EveryTaskIsAccountedFor(
    settings: Settings, pool: Store, broker: Broker<Message>, plan: seq<TaskSpec>, run: seq<System>, k: nat)
    requires IsRun(settings, pool, broker, plan, run) && k < |run|
    ensures multiset(Ids(run[k].desk.pending)) + multiset(PlacedIds(run[k].desk.results)) == multiset(Ids(plan))
    ensures Distinct(PlacedIds(run[k].desk.results))
  {
    RunKeepsQueueBooks(settings, pool, broker, plan, run, k);
    AccountedOnce(run[k].desk, Ids(plan));
  }

  /**
   The placement round trip: on a started-up system, the coordinates in a
   released task's record lead to exactly its own message, on the topic of its
   type, and 4 * offset + partition is its place in that topic's production order.
   */
  lemma RecordLeadsToMessage(settings: Settings, pool: Store, plan: seq<TaskSpec>, run: seq<System>, k: nat, i: nat)
    requires IsRun(settings, pool, StartUpBroker(), plan, run) && k < |run| && i < |run[k].desk.results|
    ensures var d := run[k].desk;
            var p := d.results[i];
            && Recorded(d.store, p)
            && p.topic == (if p.message.taskType == IO then "task_queue_io" else "task_queue_cpu")
            && p.topic in d.broker.topics && p.partition < |d.broker.topics[p.topic].queues|
            && p.offset < |d.broker.topics[p.topic].queues[p.partition]|
            && d.broker.topics[p.topic].queues[p.partition][p.offset].value == p.message
            && 4 * p.offset + p.partition == |MessagesOn(d.results[..i], p.topic)|
  {
    RunKeepsQueueBooks(settings, pool, StartUpBroker(), plan, run, k);
    RunKeepsPlacement(settings, pool, plan, run, k);
    PlacedIsThere(run[k].desk, i);
    assert Recovered(run[k].desk.results, i);
  }

  /** Somewhere among the placements is the one of a task that has been released. */
  lemma ReleasedIsPlaced(
    settings: Settings, pool: Store, plan: seq<TaskSpec>, run: seq<System>, k: nat, id: string)
    returns (i: nat)
    requires IsRun(settings, pool, StartUpBroker(), plan, run) && k < |run|
    requires id in run[k].Tasks() && !Pending(run[k], id)
    ensures i < |run[k].desk.results| && run[k].desk.results[i].message.taskId == id
  {
    var d := run[k].desk;
    EveryTaskIsAccountedFor(settings, pool, StartUpBroker(), plan, run, k);
    RunHoldsPlan(settings, pool, StartUpBroker(), plan, run, k);
    RunKeepsShape(settings, pool, StartUpBroker(), plan, run, k);
    assert id in d.store.taskOrder && id in multiset(Ids(plan));
    assert id in multiset(PlacedIds(d.results));
    i :| 0 <= i < |d.results| && PlacedIds(d.results)[i] == id;
  }

  /**
   On a started-up system the record of every released task leads to an envelope
   on the topic of the task's type that carries the task's own id, description,
   type, priority and dependencies, and the coordinates it was found at.
   */
  lemma ReleasedTaskIsQueued(
    settings: Settings, pool: Store, plan: seq<TaskSpec>, run: seq<System>, k: nat, id: string)
    requires IsRun(settings, pool, StartUpBroker(), plan, run) && k < |run|
    requires id in run[k].Tasks() && !Pending(run[k], id)
    ensures var t, topics := run[k].Tasks()[id], run[k].desk.broker.topics;
            && t.kafkaTopic == Some(if t.spec.taskType == IO then "task_queue_io" else "task_queue_cpu")
            && t.kafkaPartition.Some? && t.kafkaOffset.Some? && t.kafkaTopic.value in topics
            && 0 <= t.kafkaPartition.value < |topics[t.kafkaTopic.value].queues|
            && t.kafkaOffset.value < |topics[t.kafkaTopic.value].queues[t.kafkaPartition.value]|
            && var e := topics[t.kafkaTopic.value].queues[t.kafkaPartition.value][t.kafkaOffset.value];
               && e.topic == t.kafkaTopic.value && e.partition == t.kafkaPartition.value
               && e.offset == t.kafkaOffset.value
               && e.value.taskId == id && e.value.description == t.spec.description
               && e.value.taskType == t.spec.taskType && e.value.priority == t.spec.priority
               && e.value.dependencies == t.spec.dependencies
  {
    RunKeepsShape(settings, pool, StartUpBroker(), plan, run, k);
    var i := ReleasedIsPlaced(settings, pool, plan, run, k, id);
    RecordLeadsToMessage(settings, pool, plan, run, k, i);
    RunKeepsPlacement(settings, pool, plan, run, k);
    PlacedIsThere(run[k].desk, i);
  }
}
