/**
 backend/agents/scheduler.py: routes tasks whose dependencies are settled to a
 queue topic, round robin over four partitions, and holds the others back.
 */
module Schedulers {
  import opened Collections
  import opened Models
  import opened TaskStores
  import opened MemoryQueues

  const PARTITIONS := 4

  /** What is produced to the queue for a task. */
  datatype Message = Message(
    taskId: string, description: string, taskType: TaskType, priority: int, dependencies: seq<string>)

  function MessageOf(task: TaskSpec): Message {
    Message(task.taskId, task.description, task.taskType, task.priority, task.dependencies)
  }

  /** One entry of the list that scheduling returns. */
  datatype Placement = Placement(message: Message, topic: string, partition: nat, offset: nat)

  /** Everything scheduling reads and writes. */
  datatype Desk = Desk(
    store: Store,
    broker: Broker<Message>,
    counters: map<string, nat>,
    pending: seq<TaskSpec>,
    results: seq<Placement>)
  {
    /** Every topic has somewhere to put a message. */
    ghost predicate Usable() {
      && broker.defaultPartitions > 0
      && forall name :: name in broker.topics ==> broker.topics[name].Valid() && |broker.topics[name].queues| > 0
    }

    function NextPartition(topic: string): nat {
      if topic in counters then counters[topic] else 0
    }

    predicate Ready(task: TaskSpec) {
      store.DependenciesMet(task)
    }
  }

  function TopicFor(task: TaskSpec): string {
    if task.taskType == IO then TOPIC_QUEUE_IO else TOPIC_QUEUE_CPU
  }

  function PlacementOf(d: Desk, task: TaskSpec): Placement
    requires d.Usable()
  {
    var topic := TopicFor(task);
    var t := d.broker.Named(topic);
    var p := d.NextPartition(topic);
    Placement(MessageOf(task), topic, p, t.offsets[t.Target(Some(p))])
  }

  function Enqueued(t: Task, placement: Placement): Task {
    t.(status := QUEUED,
       kafkaTopic := Some(placement.topic),
       kafkaPartition := Some(placement.partition),
       kafkaOffset := Some(placement.offset))
  }

  /** One task goes out: its partition counter, its message, its record in the store. */
  function Place(d: Desk, task: TaskSpec): (r: Desk)
    requires d.Usable()
    ensures r.Usable() && |r.results| == |d.results| + 1
  {
    var topic := TopicFor(task);
    var placement := PlacementOf(d, task);
    d.(counters := d.counters[topic := (placement.partition + 1) % PARTITIONS],
       broker := d.broker.Produce(topic, MessageOf(task), Some(placement.partition)),
       store := d.store.UpdateTask(task.taskId, (t: Task) => Enqueued(t, placement)),
       results := d.results + [placement])
  }

  /** One pass over a list: ready tasks go out, the others join `pending`. */
  function Pass(d: Desk, todo: seq<TaskSpec>): (r: Desk)
    requires d.Usable()
    ensures r.Usable()
    ensures |r.pending| + |r.results| == |d.pending| + |d.results| + |todo|
    ensures |r.results| >= |d.results|
    decreases |todo|
  {
    if todo == [] then d
    else if d.Ready(todo[0]) then Pass(Place(d, todo[0]), todo[1..])
    else Pass(d.(pending := d.pending + [todo[0]]), todo[1..])
  }

  /** Passes until one schedules nothing. */
  function Settle(d: Desk): (r: Desk)
    requires d.Usable()
    ensures r.Usable()
    decreases |d.pending|
  {
    var r := Pass(d.(pending := []), d.pending);
    if |r.results| > |d.results| then Settle(r) else r
  }

  // ---- What holds for every pending list ----

  function Ids(tasks: seq<TaskSpec>): seq<string> {
    seq(|tasks|, i requires 0 <= i < |tasks| => tasks[i].taskId)
  }

  function PlacedIds(results: seq<Placement>): seq<string> {
    seq(|results|, i requires 0 <= i < |results| => results[i].message.taskId)
  }

  /** All ids a desk accounts for, held back or sent out. */
  function Accounted(d: Desk): multiset<string> {
    multiset(Ids(d.pending)) + multiset(PlacedIds(d.results))
  }

  lemma IdsCons(tasks: seq<TaskSpec>)
    requires tasks != []
    ensures Ids(tasks) == [tasks[0].taskId] + Ids(tasks[1..])
  {
  }

  lemma IdsSnoc(tasks: seq<TaskSpec>, task: TaskSpec)
    ensures Ids(tasks + [task]) == Ids(tasks) + [task.taskId]
  {
  }

  lemma PlacedIdsSnoc(results: seq<Placement>, last: Placement)
    ensures PlacedIds(results + [last]) == PlacedIds(results) + [last.message.taskId]
  {
  }

  /** Sending a task out accounts for it, */
  lemma PlaceAccounts(d: Desk, task: TaskSpec)
    requires d.Usable()
    ensures Accounted(Place(d, task)) == Accounted(d) + multiset{task.taskId}
  {
    PlacedIdsSnoc(d.results, PlacementOf(d, task));
  }

  /** and so does holding it back. */
  lemma HoldAccounts(d: Desk, task: TaskSpec)
    ensures Accounted(d.(pending := d.pending + [task])) == Accounted(d) + multiset{task.taskId}
  {
    IdsSnoc(d.pending, task);
  }

  lemma {:induction false} PassConserves(d: Desk, todo: seq<TaskSpec>)
    requires d.Usable()
    ensures Accounted(Pass(d, todo)) == Accounted(d) + multiset(Ids(todo))
    decreases |todo|
  {
    if todo != [] {
      IdsCons(todo);
      if d.Ready(todo[0]) {
        PlaceAccounts(d, todo[0]);
        PassConserves(Place(d, todo[0]), todo[1..]);
      } else {
        HoldAccounts(d, todo[0]);
        PassConserves(d.(pending := d.pending + [todo[0]]), todo[1..]);
      }
    } else {
      assert Ids(todo) == [];
    }
  }

  lemma {:induction false} QuietPass(d: Desk, todo: seq<TaskSpec>)
    requires d.Usable() && |Pass(d, todo).results| == |d.results|
    ensures Pass(d, todo) == d.(pending := d.pending + todo)
    ensures forall k :: 0 <= k < |todo| ==> !d.Ready(todo[k])
    decreases |todo|
  {
    if todo != [] {
      var e := d.(pending := d.pending + [todo[0]]);
      QuietPass(e, todo[1..]);
      assert d.pending + todo == d.pending + [todo[0]] + todo[1..];
      forall k | 0 <= k < |todo|
        ensures !d.Ready(todo[k])
      {
        if k > 0 {
          assert !e.Ready(todo[1..][k - 1]);
        }
      }
    } else {
      assert d.pending + todo == d.pending;
    }
  }

  /**
   Whatever is pending, scheduling loses and invents nothing, and leaves no
   task behind whose dependencies are settled in the store it ends with.
   */
  lemma {:induction false} SettleIsComplete(d: Desk)
    requires d.Usable()
    ensures Accounted(Settle(d)) == Accounted(d)
    ensures forall k :: 0 <= k < |Settle(d).pending| ==> !Settle(d).Ready(Settle(d).pending[k])
    decreases |d.pending|
  {
    var empty := d.(pending := []);
    var r := Pass(empty, d.pending);
    PassConserves(empty, d.pending);
    assert Ids(empty.pending) == [];
    if |r.results| > |d.results| {
      SettleIsComplete(r);
    } else {
      QuietPass(empty, d.pending);
    }
  }

  // ---- What holds when no pending task is settled yet ----

  ghost predicate NoneSettled(s: Store, tasks: seq<TaskSpec>) {
    forall k :: 0 <= k < |tasks| ==> !s.Settled(tasks[k].taskId)
  }

  /** Both stores settle the same dependencies. */
  ghost predicate SameSettled(s: Store, r: Store) {
    forall id :: s.Settled(id) <==> r.Settled(id)
  }

  /** `t` with status QUEUED and the queue coordinates of `u`. */
  function Requeued(t: Task, u: Task): Task {
    t.(status := QUEUED, kafkaTopic := u.kafkaTopic, kafkaPartition := u.kafkaPartition, kafkaOffset := u.kafkaOffset)
  }

  /** `r` is `s` with the tasks named in `ids` queued somewhere, and nothing else touched. */
  ghost predicate OnlyQueued(s: Store, r: Store, ids: seq<string>) {
    && r == s.(tasks := r.tasks)
    && r.tasks.Keys == s.tasks.Keys
    && forall id :: id in s.tasks ==>
         r.tasks[id] == if id in ids then Requeued(s.tasks[id], r.tasks[id]) else s.tasks[id]
  }

  function IsReady(s: Store): TaskSpec -> bool { task => s.DependenciesMet(task) }

  function IsHeldBack(s: Store): TaskSpec -> bool { task => !s.DependenciesMet(task) }

  lemma PlaceKeepsReadiness(d: Desk, task: TaskSpec)
    requires d.Usable() && !d.store.Settled(task.taskId)
    ensures SameSettled(d.store, Place(d, task).store)
    ensures OnlyQueued(d.store, Place(d, task).store, [task.taskId])
  {
  }

  lemma SameSettledSameReady(s: Store, r: Store)
    requires SameSettled(s, r)
    ensures forall task :: s.DependenciesMet(task) <==> r.DependenciesMet(task)
  {
  }

  lemma OnlyQueuedTransitive(s: Store, r: Store, t: Store, a: seq<string>, b: seq<string>)
    requires OnlyQueued(s, r, a) && OnlyQueued(r, t, b)
    ensures OnlyQueued(s, t, a + b)
  {
  }

  lemma NoneSettledRest(s: Store, todo: seq<TaskSpec>)
    requires NoneSettled(s, todo) && todo != []
    ensures !s.Settled(todo[0].taskId) && NoneSettled(s, todo[1..])
  {
    assert forall k :: 0 <= k < |todo[1..]| ==> todo[1..][k] == todo[k + 1];
  }

  lemma {:induction false} SameFilters(s: Store, r: Store, tasks: seq<TaskSpec>)
    requires SameSettled(s, r)
    ensures Filter(tasks, IsReady(s)) == Filter(tasks, IsReady(r))
    ensures Filter(tasks, IsHeldBack(s)) == Filter(tasks, IsHeldBack(r))
  {
    if tasks == [] {
    } else {
      SameSettledSameReady(s, r);
      SameFilters(s, r, tasks[1..]);
    }
  }

  /** Sending out a task that is not settled changes the readiness of no other. */
  lemma PlaceKeepsFilters(d: Desk, task: TaskSpec, rest: seq<TaskSpec>)
    requires d.Usable() && !d.store.Settled(task.taskId) && NoneSettled(d.store, rest)
    ensures NoneSettled(Place(d, task).store, rest)
    ensures Filter(rest, IsReady(Place(d, task).store)) == Filter(rest, IsReady(d.store))
    ensures Filter(rest, IsHeldBack(Place(d, task).store)) == Filter(rest, IsHeldBack(d.store))
  {
    PlaceKeepsReadiness(d, task);
    SameFilters(d.store, Place(d, task).store, rest);
  }

  lemma {:induction false} PassKeepsReadiness(d: Desk, todo: seq<TaskSpec>)
    requires d.Usable() && NoneSettled(d.store, todo)
    ensures SameSettled(d.store, Pass(d, todo).store)
    decreases |todo|
  {
    if todo == [] {
    } else {
      NoneSettledRest(d.store, todo);
      if d.Ready(todo[0]) {
        PlaceKeepsReadiness(d, todo[0]);
        PassKeepsReadiness(Place(d, todo[0]), todo[1..]);
      } else {
        PassKeepsReadiness(d.(pending := d.pending + [todo[0]]), todo[1..]);
      }
    }
  }

  /** One pass is one order-preserving filter by readiness in the store it started from. */
  lemma {:induction false} PassIsFilter(d: Desk, todo: seq<TaskSpec>)
    requires d.Usable() && NoneSettled(d.store, todo)
    ensures Pass(d, todo).pending == d.pending + Filter(todo, IsHeldBack(d.store))
    decreases |todo|
  {
    if todo == [] {
    } else {
      NoneSettledRest(d.store, todo);
      if d.Ready(todo[0]) {
        PlaceKeepsFilters(d, todo[0], todo[1..]);
        PassIsFilter(Place(d, todo[0]), todo[1..]);
      } else {
        var held := Filter(todo[1..], IsHeldBack(d.store));
        PassIsFilter(d.(pending := d.pending + [todo[0]]), todo[1..]);
        assert d.pending + [todo[0]] + held == d.pending + ([todo[0]] + held);
      }
    }
  }

  lemma OneMoreSent(d: Desk, task: TaskSpec, out: seq<TaskSpec>)
    requires d.Usable()
    ensures PlacedIds(Place(d, task).results) + Ids(out) == PlacedIds(d.results) + Ids([task] + out)
  {
    PlacedIdsSnoc(d.results, PlacementOf(d, task));
    IdsCons([task] + out);
  }

  lemma {:induction false} PassSendsReady(d: Desk, todo: seq<TaskSpec>)
    requires d.Usable() && NoneSettled(d.store, todo)
    ensures PlacedIds(Pass(d, todo).results) == PlacedIds(d.results) + Ids(Filter(todo, IsReady(d.store)))
    decreases |todo|
  {
    if todo == [] {
    } else {
      NoneSettledRest(d.store, todo);
      if d.Ready(todo[0]) {
        PlaceKeepsFilters(d, todo[0], todo[1..]);
        PassSendsReady(Place(d, todo[0]), todo[1..]);
        OneMoreSent(d, todo[0], Filter(todo[1..], IsReady(d.store)));
      } else {
        PassSendsReady(d.(pending := d.pending + [todo[0]]), todo[1..]);
      }
    }
  }

  lemma {:induction false} PassOnlyQueues(d: Desk, todo: seq<TaskSpec>)
    requires d.Usable() && NoneSettled(d.store, todo)
    ensures OnlyQueued(d.store, Pass(d, todo).store, Ids(Filter(todo, IsReady(d.store))))
    ensures d.results <= Pass(d, todo).results
    decreases |todo|
  {
    if todo == [] {
    } else {
      NoneSettledRest(d.store, todo);
      if d.Ready(todo[0]) {
        var e, out := Place(d, todo[0]), Filter(todo[1..], IsReady(d.store));
        PlaceKeepsFilters(d, todo[0], todo[1..]);
        PassOnlyQueues(e, todo[1..]);
        PlaceKeepsReadiness(d, todo[0]);
        IdsCons([todo[0]] + out);
        OnlyQueuedTransitive(d.store, e.store, Pass(e, todo[1..]).store, [todo[0].taskId], Ids(out));
      } else {
        PassOnlyQueues(d.(pending := d.pending + [todo[0]]), todo[1..]);
      }
    }
  }

  /** Filtering again by the same test changes nothing. */
  lemma {:induction false} FilterHeldTwice(s: Store, tasks: seq<TaskSpec>)
    ensures var held := Filter(tasks, IsHeldBack(s));
            Filter(held, IsHeldBack(s)) == held && Filter(held, IsReady(s)) == []
  {
    if tasks == [] {
    } else {
      FilterHeldTwice(s, tasks[1..]);
      var rest := Filter(tasks[1..], IsHeldBack(s));
      assert ([tasks[0]] + rest)[1..] == rest;
    }
  }

  lemma HeldBackUnsettled(d: Desk, r: Desk)
    requires NoneSettled(d.store, d.pending) && SameSettled(d.store, r.store)
    requires r.pending == Filter(d.pending, IsHeldBack(d.store))
    ensures NoneSettled(r.store, r.pending)
  {
    forall k | 0 <= k < |r.pending|
      ensures !r.store.Settled(r.pending[k].taskId)
    {
      FilterMember(d.pending, IsHeldBack(d.store), r.pending[k]);
    }
  }

  lemma SecondPassIsQuiet(r: Desk, s: Store, tasks: seq<TaskSpec>)
    requires r.Usable() && NoneSettled(r.store, r.pending) && SameSettled(s, r.store)
    requires r.pending == Filter(tasks, IsHeldBack(s))
    ensures Settle(r) == r
  {
    var empty := r.(pending := []);
    PassIsFilter(empty, r.pending);
    PassSendsReady(empty, r.pending);
    SameFilters(s, r.store, r.pending);
    FilterHeldTwice(s, tasks);
    var again := Pass(empty, r.pending);
    assert |PlacedIds(again.results)| == |PlacedIds(r.results)|;
    QuietPass(empty, r.pending);
  }

  /**
   When no pending task is settled itself, repeating until nothing moves is one
   filter: exactly the tasks ready at the start go out, in order, and nothing
   else in the store changes.
   */
  lemma SettleIsFilter(d: Desk)
    requires d.Usable() && NoneSettled(d.store, d.pending)
    ensures var r := Settle(d);
            && r.pending == Filter(d.pending, IsHeldBack(d.store))
            && PlacedIds(r.results) == PlacedIds(d.results) + Ids(Filter(d.pending, IsReady(d.store)))
            && SameSettled(d.store, r.store)
            && OnlyQueued(d.store, r.store, Ids(Filter(d.pending, IsReady(d.store))))
            && d.results <= r.results
  {
    var empty := d.(pending := []);
    var r := Pass(empty, d.pending);
    PassIsFilter(empty, d.pending);
    PassSendsReady(empty, d.pending);
    PassKeepsReadiness(empty, d.pending);
    PassOnlyQueues(empty, d.pending);
    if |r.results| > |d.results| {
      HeldBackUnsettled(d, r);
      SecondPassIsQuiet(r, d.store, d.pending);
    }
  }

  // ---- Placement: scheduler counter and queue offsets together ----

  /** The messages placed on one topic, in order. */
  function MessagesOn(results: seq<Placement>, topic: string): seq<Message> {
    if results == [] then []
    else
      var last := results[|results| - 1];
      MessagesOn(results[..|results| - 1], topic) + if last.topic == topic then [last.message] else []
  }

  ghost predicate SitsAt(t: Topic<Message>, name: string, k: nat, message: Message)
    requires |t.queues| == PARTITIONS
  {
    && k / 4 < |t.queues[k % 4]|
    && t.queues[k % 4][k / 4] == Envelope(k / 4, k % 4, name, message)
  }

  /**
   A topic after the scheduler has placed `sent` on it and nobody has consumed:
   message k sits in partition k mod 4 at offset k div 4, and nothing else is there.
   */
  ghost predicate RoundRobin(t: Topic<Message>, name: string, next: nat, sent: seq<Message>) {
    && t.Valid() && |t.queues| == PARTITIONS
    && next == |sent| % PARTITIONS
    && t.produced == |sent|
    && (forall q :: 0 <= q < PARTITIONS ==> t.offsets[q] == |t.queues[q]| == (|sent| + 3 - q) / 4)
    && (forall k :: 0 <= k < |sent| ==> SitsAt(t, name, k, sent[k]))
  }

  ghost predicate TopicLaw(d: Desk, name: string) {
    && name in d.broker.topics
    && RoundRobin(d.broker.topics[name], name, d.NextPartition(name), MessagesOn(d.results, name))
  }

  /** The coordinates of a placement give back its position in the topic's production order. */
  ghost predicate Recovered(results: seq<Placement>, i: nat)
    requires i < |results|
  {
    var p := results[i];
    && p.topic == (if p.message.taskType == IO then TOPIC_QUEUE_IO else TOPIC_QUEUE_CPU)
    && p.partition < PARTITIONS && 4 * p.offset + p.partition == |MessagesOn(results[..i], p.topic)|
  }

  /** Both task topics follow the round-robin law, for everything placed so far. */
  ghost predicate PlacementLaw(d: Desk) {
    && d.Usable()
    && TopicLaw(d, TOPIC_QUEUE_CPU) && TopicLaw(d, TOPIC_QUEUE_IO)
    && (forall i :: 0 <= i < |d.results| ==> Recovered(d.results, i))
  }

  lemma RoundRobinStep(t: Topic<Message>, name: string, sent: seq<Message>, message: Message)
    requires RoundRobin(t, name, |sent| % PARTITIONS, sent)
    ensures var p := t.Target(Some(|sent| % PARTITIONS));
            && p == |sent| % 4 && t.offsets[p] == |sent| / 4
            && RoundRobin(t.Put(name, p, message), name, (p + 1) % PARTITIONS, sent + [message])
  {
    var n := |sent|;
    var p := t.Target(Some(n % PARTITIONS));
    var t' := t.Put(name, p, message);
    forall k | 0 <= k < |sent + [message]|
      ensures SitsAt(t', name, k, (sent + [message])[k])
    {
      if k < n {
        assert SitsAt(t, name, k, sent[k]);
      }
    }
  }

  lemma MessagesOnAppend(results: seq<Placement>, last: Placement, topic: string)
    ensures MessagesOn(results + [last], topic) ==
            MessagesOn(results, topic) + if last.topic == topic then [last.message] else []
  {
    assert (results + [last])[..|results|] == results;
  }

  lemma PlaceKeepsTopicLaw(d: Desk, task: TaskSpec, name: string)
    requires d.Usable() && TopicLaw(d, TopicFor(task)) && TopicLaw(d, name)
    ensures TopicLaw(Place(d, task), name)
    ensures PlacementOf(d, task).partition == |MessagesOn(d.results, TopicFor(task))| % 4
    ensures PlacementOf(d, task).offset == |MessagesOn(d.results, TopicFor(task))| / 4
  {
    var topic := TopicFor(task);
    RoundRobinStep(d.broker.topics[topic], topic, MessagesOn(d.results, topic), MessageOf(task));
    MessagesOnAppend(d.results, PlacementOf(d, task), name);
  }

  lemma RecoveredAppend(results: seq<Placement>, last: Placement)
    requires forall i :: 0 <= i < |results| ==> Recovered(results, i)
    requires last.topic == if last.message.taskType == IO then TOPIC_QUEUE_IO else TOPIC_QUEUE_CPU
    requires last.partition < PARTITIONS && 4 * last.offset + last.partition == |MessagesOn(results, last.topic)|
    ensures forall i :: 0 <= i < |results + [last]| ==> Recovered(results + [last], i)
  {
    var all := results + [last];
    forall i | 0 <= i < |all|
      ensures Recovered(all, i)
    {
      assert all[..i] == results[..i];
      if i < |results| {
        assert Recovered(results, i);
      } else {
        assert results[..i] == results;
      }
    }
  }

  lemma PlaceKeepsLaw(d: Desk, task: TaskSpec)
    requires PlacementLaw(d)
    ensures PlacementLaw(Place(d, task))
  {
    PlaceKeepsTopicLaw(d, task, TOPIC_QUEUE_CPU);
    PlaceKeepsTopicLaw(d, task, TOPIC_QUEUE_IO);
    RecoveredAppend(d.results, PlacementOf(d, task));
  }

  lemma {:induction false} PassKeepsLaw(d: Desk, todo: seq<TaskSpec>)
    requires PlacementLaw(d)
    ensures PlacementLaw(Pass(d, todo))
    decreases |todo|
  {
    if todo == [] {
    } else {
      if d.Ready(todo[0]) {
        PlaceKeepsLaw(d, todo[0]);
        PassKeepsLaw(Place(d, todo[0]), todo[1..]);
      } else {
        PassKeepsLaw(d.(pending := d.pending + [todo[0]]), todo[1..]);
      }
    }
  }

  /** Scheduling, however many passes it takes, keeps the round-robin law. */
  lemma {:induction false} SettleKeepsLaw(d: Desk)
    requires PlacementLaw(d)
    ensures PlacementLaw(Settle(d))
    decreases |d.pending|
  {
    var empty := d.(pending := []);
    PassKeepsLaw(empty, d.pending);
    var r := Pass(empty, d.pending);
    if |r.results| <= |d.results| {
    } else {
      SettleKeepsLaw(r);
    }
  }

  /** Partition sizes of a topic under the law differ by at most one. */
  lemma PartitionsAreBalanced(t: Topic<Message>, name: string, next: nat, sent: seq<Message>, p: nat, q: nat)
    requires RoundRobin(t, name, next, sent) && p < PARTITIONS && q < PARTITIONS
    ensures -1 <= |t.queues[p]| - |t.queues[q]| <= 1
    ensures forall o :: 0 <= o < |t.queues[q]| ==>
              4 * o + q < |sent| && t.queues[q][o].value == sent[4 * o + q]
  {
    forall o | 0 <= o < |t.queues[q]|
      ensures 4 * o + q < |sent| && t.queues[q][o].value == sent[4 * o + q]
    {
      var k := 4 * o + q;
      assert k % 4 == q && k / 4 == o;
      assert SitsAt(t, name, k, sent[k]);
    }
  }

  // ---- The agent ----

  /** Counter, message and record make up a placement. */
  lemma PlacedDesk(d: Desk, task: TaskSpec, e: Desk)
    requires d.Usable() && d.results == [] && e.results == [PlacementOf(d, task)] && e.pending == d.pending
    requires var topic, placement := TopicFor(task), PlacementOf(d, task);
             && e.counters == d.counters[topic := (placement.partition + 1) % PARTITIONS]
             && e.broker == d.broker.Produce(topic, MessageOf(task), Some(placement.partition))
             && e.store == d.store.UpdateTask(task.taskId, (t: Task) => Enqueued(t, placement))
    ensures e == Place(d, task)
  {
  }

  /** What is held back and what went out earlier do not influence a placement. */
  lemma PlaceIgnoresLists(d: Desk, pending: seq<TaskSpec>, results: seq<Placement>, task: TaskSpec)
    requires d.Usable() && d.results == []
    ensures Place(d.(pending := pending, results := results), task)
            == Place(d, task).(pending := pending, results := results + Place(d, task).results)
  {
  }

  class Scheduler {
    const store: TaskStore
    const queue: InMemoryQueue<Message>
    var partitionCounter: map<string, nat>
    var pendingTasks: seq<TaskSpec>

    ghost function View(): Desk
      reads this, store, queue
    {
      Desk(store.View(), queue.View(), partitionCounter, pendingTasks, [])
    }

    ghost predicate Valid()
      reads this, store, queue
    {
      queue.Valid() && View().Usable()
    }

    constructor (store: TaskStore, queue: InMemoryQueue<Message>)
      ensures this.store == store && this.queue == queue && partitionCounter == map[] && pendingTasks == []
    {
      this.store, this.queue := store, queue;
      partitionCounter, pendingTasks := map[], [];
    }

    method NextPartition(topic: string) returns (partition: nat)
      modifies this`partitionCounter
      ensures partition == old(View()).NextPartition(topic)
      ensures partitionCounter == old(partitionCounter)[topic := (partition + 1) % PARTITIONS]
    {
      if topic !in partitionCounter {
        partitionCounter := partitionCounter[topic := 0];
      }
      partition := partitionCounter[topic];
      partitionCounter := partitionCounter[topic := (partition + 1) % 4];
    }

    method Send(topic: string, message: Message, partition: nat) returns (offset: nat)
      requires queue.Valid() && |queue.View().Named(topic).queues| > 0
      modifies queue
      ensures queue.Valid() && queue.View() == old(queue.View()).Produce(topic, message, Some(partition))
      ensures var t := old(queue.View()).Named(topic); offset == t.offsets[t.Target(Some(partition))]
    {
      ghost var before := queue.topics;
      var placed := queue.Produce(topic, message, Some(partition));
      OnlyChangesIsUpdate(topic, before, queue.topics);
      offset := placed.value;
    }

    method ScheduleSingle(task: TaskSpec) returns (placement: Placement)
      requires Valid()
      modifies this`partitionCounter, store, queue
      ensures Valid()
      ensures View().(results := [placement]) == Place(old(View()), task)
    {
      ghost var d := View();
      var topic := if task.taskType == IO then TOPIC_QUEUE_IO else TOPIC_QUEUE_CPU;
      var partition := NextPartition(topic);
      var message := Message(task.taskId, task.description, task.taskType, task.priority, task.dependencies);
      var offset := Send(topic, message, partition);
      placement := Placement(message, topic, partition, offset);
      assert placement == PlacementOf(d, task);
      Record(task.taskId, placement);
      PlacedDesk(d, task, View().(results := [placement]));
    }

    method Record(id: string, placement: Placement)
      modifies store
      ensures store.View() == old(store.View()).UpdateTask(id, (t: Task) => Enqueued(t, placement))
    {
      var _ := store.UpdateTask(id, (t: Task) =>
        t.(status := QUEUED,
           kafkaTopic := Some(placement.topic),
           kafkaPartition := Some(placement.partition),
           kafkaOffset := Some(placement.offset)));
    }

    /** One pass over the pending list, which the caller replaces by what is still pending. */
    method OnePass(
      soFar: seq<Placement>)
      returns (stillPending: seq<TaskSpec>, results: seq<Placement>, scheduled: bool)
      requires Valid()
      modifies this`partitionCounter, store, queue
      ensures Valid()
      ensures View().(pending := stillPending, results := results)
              == Pass(old(View()).(pending := [], results := soFar), old(pendingTasks))
      ensures scheduled <==> |results| > |soFar|
    {
      ghost var desk := View().(pending := [], results := soFar);
      ghost var passed := Pass(desk, pendingTasks);
      stillPending, results, scheduled := [], soFar, false;
      assert pendingTasks[0..] == pendingTasks;
      for i := 0 to |pendingTasks|
        invariant Valid()
        invariant desk == View().(pending := stillPending, results := results)
        invariant Pass(desk, pendingTasks[i..]) == passed
        invariant |results| >= |soFar|
        invariant scheduled <==> |results| > |soFar|
      {
        var task := pendingTasks[i];
        assert pendingTasks[i..][0] == task && pendingTasks[i..][1..] == pendingTasks[i + 1..];
        var met := store.AreDependenciesMet(task);
        if met {
          PlaceIgnoresLists(View(), stillPending, results, task);
          desk := Place(desk, task);
          var placement := ScheduleSingle(task);
          results := results + [placement];
          scheduled := true;
        } else {
          stillPending := stillPending + [task];
          desk := desk.(pending := stillPending);
        }
      }
    }

    /** Repeats passes over the pending list until one of them schedules nothing. */
    method Schedule(tasks: seq<TaskSpec>) returns (results: seq<Placement>)
      requires Valid()
      modifies this, store, queue
      ensures Valid()
      ensures View().(results := results) == Settle(old(View()).(pending := old(pendingTasks) + tasks))
    {
      results := [];
      pendingTasks := pendingTasks + tasks;
      ghost var goal := Settle(View());
      var scheduled := true;
      while scheduled
        invariant Valid()
        invariant scheduled ==> Settle(View().(results := results)) == goal
        invariant !scheduled ==> View().(results := results) == goal
        decreases |pendingTasks|, scheduled
      {
        ghost var start := View().(results := results);
        var stillPending;
        stillPending, results, scheduled := OnePass(results);
        pendingTasks := stillPending;
        assert View().(results := results) == Pass(start.(pending := []), start.pending);
      }
    }

    method RetryPending() returns (results: seq<Placement>)
      requires Valid()
      modifies this, store, queue
      ensures Valid()
      ensures View().(results := results) == Settle(old(View()))
    {
      if pendingTasks == [] {
        return [];
      }
      assert pendingTasks + [] == pendingTasks;
      results := Schedule([]);
    }
  }
}
