/** When the loads the balancer reports are exact, not just bounded. */
module LoadExactness {
  import opened Collections
  import opened Models
  import opened TaskStores
  import opened MemoryQueues
  import opened LoadBalancers
  import opened Schedulers
  import opened Pipelines
  import opened Lifecycle
  import opened Accounting

  const SLOTS := 4

  /** Every worker of the type reports 25 percent per task in flight. */
  ghost predicate Exact(s: System, workerType: string) {
    forall w :: w in OfType(s.Store(), workerType) ==>
      w in s.Store().workers && Load(s, w) == 25 * OnWorker(s, w)
  }

  predicate TaskOfType(tasks: map<string, Task>, id: string, workerType: string) {
    id in tasks && WorkerTypeFor(tasks[id].spec.partition) == workerType
  }

  function InFlightOfType(tasks: map<string, Task>, workerType: string): Pipe -> nat {
    (p: Pipe) => if (p.pc.Assigned? || p.pc.Running?) && TaskOfType(tasks, p.task, workerType) then 1 else 0
  }

  /** Tasks of a type that are assigned and not yet released. */
  function Demand(s: System, workerType: string): nat {
    Sum(s.pipes, InFlightOfType(s.Tasks(), workerType))
  }

  // ---- Counting by task and counting by worker agree ----

  function OnAny(ws: seq<string>): Pipe -> nat {
    (p: Pipe) => if (p.pc.Assigned? || p.pc.Running?) && p.pc.worker in ws then 1 else 0
  }

  function OnEach(pipes: seq<Pipe>, ws: seq<string>): nat {
    if ws == [] then 0 else Sum(pipes, InFlight(ws[0])) + OnEach(pipes, ws[1..])
  }

  lemma {:induction false} EachIsAny(pipes: seq<Pipe>, ws: seq<string>)
    requires Distinct(ws)
    ensures OnEach(pipes, ws) == Sum(pipes, OnAny(ws))
  {
    if ws == [] {
      SumZero(pipes, OnAny(ws));
    } else {
      EachIsAny(pipes, ws[1..]);
      assert forall w :: w in ws <==> w == ws[0] || w in ws[1..];
      SumAdd(pipes, OnAny(ws), InFlight(ws[0]), OnAny(ws[1..]));
    }
  }

  lemma DemandByWorker(s: System, workerType: string)
    requires Shape(s) && AllHoused(s)
    ensures Demand(s, workerType) == OnEach(s.pipes, OfType(s.Store(), workerType))
  {
    var ws := OfType(s.Store(), workerType);
    FilterDistinct(s.Store().workerOrder, HasType(s.Store(), workerType));
    EachIsAny(s.pipes, ws);
    forall p | p in s.pipes
      ensures InFlightOfType(s.Tasks(), workerType)(p) == OnAny(ws)(p)
    {
      var k :| 0 <= k < |s.pipes| && s.pipes[k] == p;
      assert Housed(s, k);
      if p.pc.Assigned? || p.pc.Running? {
        FilterMember(s.Store().workerOrder, HasType(s.Store(), workerType), p.pc.worker);
      }
    }
    SumSame(s.pipes, InFlightOfType(s.Tasks(), workerType), OnAny(ws));
  }

  /** Pigeonhole, upwards: if every worker has at least four tasks, together they have four each. */
  lemma {:induction false} AtLeastEach(pipes: seq<Pipe>, ws: seq<string>)
    requires forall w :: w in ws ==> Sum(pipes, InFlight(w)) >= SLOTS
    ensures OnEach(pipes, ws) >= SLOTS * |ws|
  {
    if ws == [] {
    } else {
      assert ws[0] in ws && forall w :: w in ws[1..] ==> w in ws;
      AtLeastEach(pipes, ws[1..]);
    }
  }

  lemma {:induction false} AtMostEach(pipes: seq<Pipe>, ws: seq<string>)
    requires forall w :: w in ws ==> Sum(pipes, InFlight(w)) <= SLOTS
    ensures OnEach(pipes, ws) <= SLOTS * |ws|
  {
    if ws == [] {
    } else {
      assert ws[0] in ws && forall w :: w in ws[1..] ==> w in ws;
      AtMostEach(pipes, ws[1..]);
    }
  }

  /** Exact loads cannot account for more than four tasks per worker. */
  lemma ExactBoundsDemand(settings: Settings, s: System, workerType: string)
    requires Books(settings, s) && Exact(s, workerType)
    ensures Demand(s, workerType) <= SLOTS * |OfType(s.Store(), workerType)|
  {
    DemandByWorker(s, workerType);
    forall w | w in OfType(s.Store(), workerType)
      ensures Sum(s.pipes, InFlight(w)) <= SLOTS
    {
      assert WorkerBooks(s, w) && Load(s, w) == 25 * OnWorker(s, w);
    }
    AtMostEach(s.pipes, OfType(s.Store(), workerType));
  }

  // ---- One step ----

  predicate Saturates(s: System, a: Action, w: string) {
    && a.Assign? && a.i < |s.pipes| && s.pipes[a.i].task in s.Tasks()
    && Choice(s.Store(), s.Tasks()[s.pipes[a.i].task].spec) == Some(w)
    && w in s.Store().workers && s.Store().workers[w].loadPct + LOAD_STEP > FULL_LOAD
  }

  lemma ScheduleKeepsLog(s: System, i: nat)
    requires Shape(s) && PendingFresh(s) && i < |s.pipes|
    ensures WakeStep(s, i).log == s.log
    ensures WakeStep(s, i).Store().workers == s.Store().workers
    ensures WakeStep(s, i).Store().workerOrder == s.Store().workerOrder
  {
    EndKeepsFresh(s, i);
    ReleaseEffect(s.(pipes := s.pipes[i := Pipe(s.pipes[i].task, Done)]));
  }

  lemma AssignDebt(s: System, i: nat, w: string)
    requires Shape(s) && i < |s.pipes| && (s.pipes[i].pc.Start? || s.pipes[i].pc.Waiting?)
    ensures Debt(AssignStep(s, i), w) == Debt(s, w) + if Saturates(s, Assign(i), w) then 1 else 0
  {
    var event := AssignStep(s, i).log[|s.log|];
    SumSnoc(s.log, event, SaturatedAt(w));
    SumSnoc(s.log, event, FlooredAt(w));
  }

  lemma OtherDebt(settings: Settings, s: System, a: Action, w: string)
    requires Shape(s) && Enabled(s, a) && IsAdvance(a) && !a.Assign?
    ensures Debt(Apply(settings, s, a), w) <= Debt(s, w)
  {
    var pc, store, status, event := StepShape(settings, s, a);
    AdvanceTally(s, a.i, pc, store, event, w);
  }

  /** Only a saturated assignment adds to a worker's debt. */
  lemma DebtStep(settings: Settings, s: System, a: Action, w: string)
    requires Shape(s) && PendingFresh(s) && Enabled(s, a)
    ensures Debt(Apply(settings, s, a), w) <= Debt(s, w) + if Saturates(s, a, w) then 1 else 0
  {
    match a {
      case Wake(i) => ScheduleKeepsLog(s, i);
      case Respawn(i) =>
      case Assign(i) => AssignDebt(s, i, w);
      case _ => OtherDebt(settings, s, a, w);
    }
  }

  /** Workers neither change type nor order. */
  lemma SameTypes(settings: Settings, s: System, a: Action, workerType: string)
    requires Shape(s) && PendingFresh(s) && Enabled(s, a)
    ensures OfType(Apply(settings, s, a).Store(), workerType) == OfType(s.Store(), workerType)
  {
    var s' := Apply(settings, s, a);
    match a {
      case Wake(i) => ScheduleKeepsLog(s, i);
      case Respawn(i) =>
      case _ =>
        var pc, store, status, event := StepShape(settings, s, a);
    }
    FilterSame(s.Store().workerOrder, HasType(s'.Store(), workerType), HasType(s.Store(), workerType));
  }

  lemma OneMoreInFlight(pipes: seq<Pipe>, i: nat, pc: Pc, tasks: map<string, Task>, workerType: string)
    requires i < |pipes| && (pipes[i].pc.Start? || pipes[i].pc.Waiting?) && pc.Assigned?
    requires TaskOfType(tasks, pipes[i].task, workerType)
    ensures Sum(pipes[i := Pipe(pipes[i].task, pc)], InFlightOfType(tasks, workerType))
            == Sum(pipes, InFlightOfType(tasks, workerType)) + 1
  {
    SumUpdate(pipes, i, Pipe(pipes[i].task, pc), InFlightOfType(tasks, workerType));
  }

  lemma SameTaskTypes(pipes: seq<Pipe>, tasks: map<string, Task>, tasks': map<string, Task>, workerType: string)
    requires tasks'.Keys == tasks.Keys && forall id :: id in tasks ==> tasks'[id].spec == tasks[id].spec
    ensures Sum(pipes, InFlightOfType(tasks, workerType)) == Sum(pipes, InFlightOfType(tasks', workerType))
  {
    SumSame(pipes, InFlightOfType(tasks, workerType), InFlightOfType(tasks', workerType));
  }

  lemma AssignRaisesDemand(s: System, i: nat, workerType: string)
    requires Shape(s) && i < |s.pipes| && (s.pipes[i].pc.Start? || s.pipes[i].pc.Waiting?)
    requires Choice(s.Store(), s.Tasks()[s.pipes[i].task].spec).Some?
    requires TaskOfType(s.Tasks(), s.pipes[i].task, workerType)
    ensures Demand(AssignStep(s, i), workerType) == Demand(s, workerType) + 1
  {
    var pc, store, status, event := AssignShape(s, i);
    OneMoreInFlight(s.pipes, i, pc, s.Tasks(), workerType);
    SameTaskTypes(s.pipes[i := Pipe(s.pipes[i].task, pc)], s.Tasks(), store.tasks, workerType);
  }

  /** If even the least loaded worker is full and loads are exact, the demand has reached four per worker. */
  lemma SaturationNeedsDemand(settings: Settings, s: System, a: Action, w: string, workerType: string)
    requires Books(settings, s) && Exact(s, workerType) && Enabled(s, a)
    requires Saturates(s, a, w) && w in OfType(s.Store(), workerType)
    ensures Demand(Apply(settings, s, a), workerType) > SLOTS * |OfType(s.Store(), workerType)|
  {
    var ws := OfType(s.Store(), workerType);
    var id := s.pipes[a.i].task;
    FilterMember(s.Store().workerOrder, HasType(s.Store(), workerType), w);
    assert WorkerBooks(s, w);
    forall v | v in ws
      ensures Sum(s.pipes, InFlight(v)) >= SLOTS
    {
      FilterMember(s.Store().workerOrder, HasType(s.Store(), workerType), v);
      assert WorkerBooks(s, v) && s.Store().Available(v, workerType);
    }
    AtLeastEach(s.pipes, ws);
    DemandByWorker(s, workerType);
    AssignRaisesDemand(s, a.i, workerType);
  }

  lemma StaysExact(settings: Settings, s: System, a: Action, workerType: string, w: string)
    requires Books(settings, s) && PendingFresh(s) && Exact(s, workerType) && Enabled(s, a)
    requires Demand(Apply(settings, s, a), workerType) <= SLOTS * |OfType(s.Store(), workerType)|
    requires w in OfType(s.Store(), workerType)
    ensures Debt(Apply(settings, s, a), w) <= 0
  {
    assert WorkerBooks(s, w) && Load(s, w) == 25 * OnWorker(s, w);
    DebtStep(settings, s, a, w);
    if Saturates(s, a, w) {
      SaturationNeedsDemand(settings, s, a, w, workerType);
    }
  }

  /** A worker without debt reports its load exactly. */
  lemma NoDebtIsExact(settings: Settings, s: System, workerType: string, w: string)
    requires Books(settings, s) && w in OfType(s.Store(), workerType) && Debt(s, w) <= 0
    ensures w in s.Store().workers && Load(s, w) == 25 * OnWorker(s, w)
  {
    FilterMember(s.Store().workerOrder, HasType(s.Store(), workerType), w);
    assert WorkerBooks(s, w);
  }

  lemma StepKeepsExact(settings: Settings, s: System, s': System, workerType: string)
    requires Books(settings, s) && Books(settings, s') && PendingFresh(s) && Exact(s, workerType)
    requires Next(settings, s, s') && Demand(s', workerType) <= SLOTS * |OfType(s.Store(), workerType)|
    ensures Exact(s', workerType) && OfType(s'.Store(), workerType) == OfType(s.Store(), workerType)
  {
    var a :| StepBy(settings, s, a, s');
    SameTypes(settings, s, a, workerType);
    forall w | w in OfType(s'.Store(), workerType)
      ensures w in s'.Store().workers && Load(s', w) == 25 * OnWorker(s', w)
    {
      StaysExact(settings, s, a, workerType, w);
      NoDebtIsExact(settings, s', workerType, w);
    }
  }

  ghost predicate DemandBounded(run: seq<System>, workerType: string, n: nat) {
    forall j :: 0 <= j < |run| ==> Demand(run[j], workerType) <= SLOTS * n
  }

  ghost predicate ExactWith(s: System, workerType: string, ws: seq<string>) {
    Exact(s, workerType) && OfType(s.Store(), workerType) == ws
  }

  lemma ExactPassesOn(
    settings: Settings, pool: Store, broker: Broker<Message>, plan: seq<TaskSpec>, run: seq<System>,
    workerType: string, ws: seq<string>, j: nat)
    requires IsRun(settings, pool, broker, plan, run) && j + 1 < |run| && ExactWith(run[j], workerType, ws)
    requires DemandBounded(run, workerType, |ws|)
    ensures ExactWith(run[j + 1], workerType, ws)
  {
    RunKeepsFresh(settings, pool, broker, plan, run, j);
    RunKeepsBooks(settings, pool, broker, plan, run, j);
    RunKeepsBooks(settings, pool, broker, plan, run, j + 1);
    assert Next(settings, run[j], run[j + 1]);
    StepKeepsExact(settings, run[j], run[j + 1], workerType);
  }

  lemma ExactAlong(
    settings: Settings, pool: Store, broker: Broker<Message>, plan: seq<TaskSpec>, run: seq<System>,
    workerType: string, ws: seq<string>, k: nat)
    requires IsRun(settings, pool, broker, plan, run) && k < |run| && ExactWith(run[0], workerType, ws)
    requires DemandBounded(run, workerType, |ws|)
    ensures Exact(run[k], workerType)
  {
    forall j | 0 <= j < |run| - 1 && ExactWith(run[j], workerType, ws)
      ensures ExactWith(run[j + 1], workerType, ws)
    {
      ExactPassesOn(settings, pool, broker, plan, run, workerType, ws, j);
    }
    HoldsAlong(run, (s: System) => ExactWith(s, workerType, ws), 0, k);
  }

  lemma SameTypesPassOn(
    settings: Settings, pool: Store, broker: Broker<Message>, plan: seq<TaskSpec>, run: seq<System>,
    workerType: string, j: nat)
    requires IsRun(settings, pool, broker, plan, run) && j + 1 < |run|
    ensures OfType(run[j + 1].Store(), workerType) == OfType(run[j].Store(), workerType)
  {
    RunKeepsFresh(settings, pool, broker, plan, run, j);
    RunKeepsShape(settings, pool, broker, plan, run, j);
    assert Next(settings, run[j], run[j + 1]);
    var a :| StepBy(settings, run[j], a, run[j + 1]);
    SameTypes(settings, run[j], a, workerType);
  }

  lemma SameTypesAlong(
    settings: Settings, pool: Store, broker: Broker<Message>, plan: seq<TaskSpec>, run: seq<System>,
    workerType: string, k: nat)
    requires IsRun(settings, pool, broker, plan, run) && k < |run|
    ensures OfType(run[k].Store(), workerType) == OfType(run[0].Store(), workerType)
  {
    var ws := OfType(run[0].Store(), workerType);
    forall j | 0 <= j < |run| - 1 && OfType(run[j].Store(), workerType) == ws
      ensures OfType(run[j + 1].Store(), workerType) == ws
    {
      SameTypesPassOn(settings, pool, broker, plan, run, workerType, j);
    }
    HoldsAlong(run, (s: System) => OfType(s.Store(), workerType) == ws, 0, k);
  }

  lemma StartsWithoutDebt(s: System, pool: Store, broker: Broker<Message>, plan: seq<TaskSpec>)
    requires Initial(s, pool, broker, plan)
    ensures forall w :: Debt(s, w) == 0
  {
    LoadedIsReady(pool, broker, plan);
    ReleaseEffect(Loaded(pool, broker, plan));
  }

  lemma InitialExact(
    settings: Settings, s: System, pool: Store, broker: Broker<Message>, plan: seq<TaskSpec>, workerType: string)
    requires Initial(s, pool, broker, plan)
    ensures Exact(s, workerType)
  {
    InitialBooks(settings, s, pool, broker, plan);
    StartsWithoutDebt(s, pool, broker, plan);
    forall w | w in OfType(s.Store(), workerType)
      ensures w in s.Store().workers && Load(s, w) == 25 * OnWorker(s, w)
    {
      NoDebtIsExact(settings, s, workerType, w);
    }
  }

  /**
   Throughout a run every worker of a type reports exactly 25 percent per task
   in flight if and only if the tasks of that type in flight never exceed four
   per worker: least-loaded choice saturates nobody while there is room.
   */
  lemma LoadsExactIff(
    settings: Settings, pool: Store, broker: Broker<Message>, plan: seq<TaskSpec>, run: seq<System>, workerType: string)
    requires IsRun(settings, pool, broker, plan, run)
    ensures (forall k :: 0 <= k < |run| ==> Exact(run[k], workerType)) <==>
            (forall k :: 0 <= k < |run| ==> Demand(run[k], workerType) <= SLOTS * |OfType(run[0].Store(), workerType)|)
  {
    var ws := OfType(run[0].Store(), workerType);
    if DemandBounded(run, workerType, |ws|) {
      InitialExact(settings, run[0], pool, broker, plan, workerType);
      forall k | 0 <= k < |run|
        ensures Exact(run[k], workerType)
      {
        ExactAlong(settings, pool, broker, plan, run, workerType, ws, k);
      }
    }
    if forall k :: 0 <= k < |run| ==> Exact(run[k], workerType) {
      forall k | 0 <= k < |run|
        ensures Demand(run[k], workerType) <= SLOTS * |ws|
      {
        SameTypesAlong(settings, pool, broker, plan, run, workerType, k);
        RunKeepsBooks(settings, pool, broker, plan, run, k);
        ExactBoundsDemand(settings, run[k], workerType);
      }
    }
  }
}
