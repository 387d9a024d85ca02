# QueueMind's task pipeline, verified

QueueMind splits a workload into tasks with dependencies and drives each task
through an asynchronous pipeline: plan, schedule, assign a worker, execute,
retry or validate, and release the tasks that waited. Every task is carried by a
`process_single_task` coroutine; all coroutines share one store, one scheduler
and one queue, and they spawn one another. This project models that pipeline in
development mode and proves what it keeps over every run, for every interleaving
of the coroutines.

## How the model is laid out

* One module per agent (`TaskStore.dfy`, `MemoryQueue.dfy`, `Scheduler.dfy`,
  `LoadBalancer.dfy`, `RetryAgent.dfy`, `Critic.dfy`, `Planner.dfy`). An agent
  that updates state is a class whose methods are proved against functions on
  values; the laws are proved about those functions.
* `Pipeline.dfy` is the step system. Locks are never held across a suspension,
  so every stretch of code between two suspension points is one atomic action:
  `Assign`, `Begin`, `Finish`, `Recover`, `Respawn`, `Judge`, `Wake`. Which
  coroutine moves next, what a worker returns, the jitter of a delay and the
  random part of a score are free choices. `System` holds the scheduler's desk
  (store, queue, counters, pending list, history of placements), the coroutines
  with their program counters, and the event log.
* `Orchestrator.dfy` is `main.py` as a class: one method per atomic section,
  each proved equal to its action, the spawning loop, start-up, `run_workload`,
  and an event loop that is shown to end and to have produced a run of the step
  system. So all theorems about runs hold of it.
* `Effects.dfy` says of each action, value by value, what it writes and that it
  writes nothing else.
* `Lifecycle.dfy`, `Quiescence.dfy`, `Precedence.dfy`, `Termination.dfy`,
  `Accounting.dfy`, `LoadExactness.dfy`, `WorkerState.dfy` and `Placement.dfy`
  prove what holds in every run, also when several coroutines work on one task.
* `Exclusive.dfy`, `EndToEnd.dfy` and most of `Records.dfy` treat runs "without
  overlap": no two live coroutines ever share a task that some worker could run.
  (Coroutines of a task without any worker only wait and give up.) `Overlap.dfy`
  says exactly when a run is of this kind, and `DoubleProcessing.dfy` what can
  happen when it is not.
* `SmoothRun.dfy` shows that runs in which nothing fails can always be completed,
  `Workload.dfy` puts planner, start-up and runs together, and `Scenarios.dfy`
  shows, on the planner's own workloads, that the failures below do occur.
* What holds for coroutines that move as they like holds for the event loop's
  order too. Where something is shown to be possible, the witness keeps that
  order as far as it matters (`InTurn` in `Driving.dfy`): new coroutines start in
  the order of their creation, and before anybody wakes from a sleep.

## Where the code and its intentions differ

* The comment in the spawning loop (`backend/main.py:176`) announces that only
  tasks not already being processed are taken up; the code makes no such check.
  A coroutine that wakes up while another is on its way to a QUEUED task spawns a
  second one for it, and the slower of the two overwrites the VALIDATED state: in
  any reachable state of that kind (`DoubleProcessing.TakenUpTwice`), with all
  coroutines in turn unless a dependency of the task is about to be taken up again
  (`DoubleProcessing.TakenUpTwiceInTurn`), and so on every planned workload,
  whatever its size (`Scenarios.ValidatedCanBeOverwritten`). After a run without
  overlap VALIDATED can be left if and only if such a state can come about without
  overlap (`DoubleProcessing.OverwritableIff`). The check
  that would be needed is `QueuedAreFree`: a run is free of overlap if and only if
  it holds at every wake-up (`Overlap.ExclusiveIffWakesAreGuarded`).
* A release sets the worker "idle" whatever else it carries. The flag follows
  the latest event about the worker and nothing else
  (`WorkerStates.FlagFollowsLatestEvent`). Throughout a run it tells whether the
  worker has work in flight if and only if the worker is never handed back while
  it has two or more tasks (`WorkerStates.IdleMeansFreeIff`); with more chunks than
  IO workers a planned workload can break this (`Scenarios.IdleWithWorkInFlight`).
* A load is cut off at 100 and at 0 percent, so it is not always 25 percent per
  task. It is, throughout a run, if and only if there are never more than four
  tasks per worker in flight (`LoadExactness.LoadsExactIff`). A planned workload
  with more than four chunks per IO worker can go beyond that
  (`Scenarios.LoadCanBeInexact`).
* Delays need not grow with the retry count. Whatever the jitters, the delays
  handed out never shrink from one retry to the next if and only if the base delay
  is not negative and the longest delay before the first retry, capped and rounded,
  is no longer than the shortest one before the second
  (`RetryAgents.BackoffMonotoneIff`). A base of a second is enough, and so is a cap
  of at most twice a base that is not negative (`RetryAgents.SecondCatchesUpWhen`).
* `docs/architecture.md` shows the states PARTITIONED and STORED and sends a
  retried task back to QUEUED. The code asks for STORED in places, but no task ever
  enters either state (`Lifecycle.NeverPartitionedOrStored`), and a retried task
  goes from FAILED to CREATED and straight to ASSIGNED.
* A task for which no worker is registered stays QUEUED when its coroutine gives
  up; it counts as blocked, beside dead-lettered and rejected tasks.

## Modelling decisions

* The store keeps the insertion order of its two dictionaries, because ties
  between workers and the order of spawning depend on it.
* A coroutine holds a reference to the stored task; the model looks the task up
  by id. The two agree as long as an id is stored once, as in a fresh store.
* Loads are whole percents, execution times hundredths of a second, scores tenths
  of a point, delays real numbers rounded to tenths (ties to even).
* Lower-casing in error patterns is that of the ASCII letters.
* A negative retry limit grants no retry, as in the code.
* The four per-topic dictionaries of the queue are one record per topic. A topic
  created with no partitions has nowhere to put a message; the division by zero
  that the code then runs into is the result `None`.
* The scheduler's methods ask for a queue in which every topic has a partition, as
  start-up and the default of four partitions provide.
* The summary's health thresholds compare whole numbers
  (`100 * failed > 30 * total`).

## Main results

The table below names every member that models or states something; most of its
rows are the links between code and specification. The results that they are for:

* every run ends (`Termination.EveryRunEnds`), no wake-up is lost
  (`Quiescence.NoLostWakeUp`), and at rest every task is validated or has a reason
  not to be (`Quiescence.QuiescentFates`);
* dependencies come first, transitively, in every run
  (`Precedence.DependenciesComeFirst`), and without overlap every task follows the
  documented diagram (`Exclusive.LifecycleFollowsDiagram`) and is attempted no
  more often than its retries allow (`Exclusive.AttemptsBounded`);
* failures alone decide what is validated (`EndToEnd.ValidatedIffNothingFailed`,
  `Workloads.AggregateIffNoDeadLetter`, `Workloads.PlannedWorkloadEnds`), and runs
  without any exist for every workload (`Workloads.PlannedRunExists`);
* when tasks are taken up twice, exactly (`Overlap.ExclusiveIffWakesAreGuarded`),
  and what that allows (`DoubleProcessing.OverwritableIff`,
  `DoubleProcessing.TakenUpTwiceInTurn`, `Scenarios.ValidatedCanBeOverwritten`);
* the books of workers and retries (`Accounting.LoadLaw`,
  `Accounting.WorkerAccounting`, `Accounting.RetryConservation`), and when a load
  and a busy flag are right, exactly (`LoadExactness.LoadsExactIff`,
  `WorkerStates.IdleMeansFreeIff`);
* delivery by the queue (`MemoryQueues.DeliveryIsOrderedAndUnique`,
  `MemoryQueues.BoundedWaiting`, `MemoryQueues.BoundedWaitingIsExact`) and the
  scheduler's placement (`Schedulers.SettleIsComplete`,
  `PlacementInRuns.RecordLeadsToMessage`,
  `PlacementInRuns.EveryTaskIsAccountedFor`);
* when delays grow, exactly (`RetryAgents.BackoffMonotoneIff`);
* the event loop does what the step system does (`Orchestration.Serve`).

## Model

| member | source | states |
|---|---|---|
| `TaskStores.TaskStore.AddTask` | backend/store/task_store.py:38-41 | Adding stores the task under its id, keeps its place if the id is known, and keeps the dictionaries and their orders consistent. |
| `TaskStores.TaskStore.UpdateTask` | backend/store/task_store.py:43-53 | Exactly the named task changes, by exactly the given change; an unknown id changes nothing and returns nothing. |
| `TaskStores.TaskStore.GetTasksByStatus` | backend/store/task_store.py:61-62 | Returns the tasks in the given state, all of them, in insertion order. |
| `TaskStores.TaskStore.AreDependenciesMet` | backend/store/task_store.py:64-70 | True if and only if every dependency is stored and VALIDATED or STORED. |
| `TaskStores.TaskStore.GetLeastLoadedWorker` | backend/store/task_store.py:96-104 | The forward scan equals the recursive choice whose contract is the next two rows. |
| `TaskStores.Store.LeastLoaded` | backend/store/task_store.py:96-104 | No choice exactly when no worker of the type is available; otherwise an available one whose load no other available one undercuts. |
| `TaskStores.LeastLoadedIsFirst` | backend/store/task_store.py:96-104 | Among equally loaded workers the one registered first is chosen. |
| `TaskStores.SummaryAgreesWithCounts` | backend/store/task_store.py:129-167 | The status table adds up to the number of tasks, and the summary's completed and validated totals are sums of its rows. |
| `TaskStores.TaskStore.GetSummary` | backend/store/task_store.py:129-161 | The summary's counters in terms of the status table and their order, the health thresholds, the average of the execution times stored so far, and the throughput that makes the completed tasks in the time elapsed. |
| `TaskStores.MeanTimesCount` | backend/store/task_store.py:136-137 | The average latency is the mean: times the number of stored times it is their sum, and 0 if there are none. |
| `TaskStores.TimesListed` | backend/store/task_store.py:136 | The times averaged are those of the tasks whose records have one, each once, in the order of the tasks. |
| `TaskStores.ThroughputMakesCompleted` | backend/store/task_store.py:139-140 | The throughput, times the minutes elapsed, is the number of completed tasks. |
| `TaskStores.HealthByRate` | backend/store/task_store.py:142-149 | Critical exactly above 30 percent failed, stable exactly up to 10 percent or without tasks. |
| `TaskStores.TaskStore.GetTasksByStatusCounts` | backend/store/task_store.py:163-167 | A row for exactly the states that occur, with the right count. |
| `MemoryQueues.InMemoryQueue.CreateTopic` | backend/queue/memory_queue.py:48-55 | Creates empty partitions once; creating again changes nothing. |
| `MemoryQueues.InMemoryQueue.Produce` | backend/queue/memory_queue.py:57-81 | Appends to the requested partition modulo their number, or round robin; the offset reported is the partition's count so far; no other topic changes; the topic with its history moves as the traffic model says. |
| `MemoryQueues.InMemoryQueue.Poll` | backend/queue/memory_queue.py:92-102 | One pass of the consumer loop: the head of the group's next partition comes out, the cursor advances, and the topic with its history moves as the traffic model says. |
| `MemoryQueues.InMemoryQueue.PollRound` | backend/queue/memory_queue.py:83-106 | One undisturbed round creates the topic if need be, hands out the heads of all non-empty partitions in cyclic order from the cursor, leaves the cursor where it was, and is empty exactly when the topic is. |
| `MemoryQueues.InMemoryQueue.GetQueueDepth` | backend/queue/memory_queue.py:108-114 | The depth is the number of messages waiting in all partitions, which together with those delivered are the ones produced; 0 for an unknown topic. |
| `MemoryQueues.DeliveryIsOrderedAndUnique` | backend/queue/memory_queue.py:57-114 | For every interleaving of producers, consumers and groups: each partition delivers a prefix of its production order with offsets 0, 1, 2, ..., nothing twice, and depth plus delivered is produced. |
| `MemoryQueues.BoundedWaiting` | backend/queue/memory_queue.py:87-102 | A message with j ahead of it in one of p partitions has come out after (j + 1) * p polls by any one group, whatever producers and other groups do. |
| `MemoryQueues.BoundedWaitingIsExact` | backend/queue/memory_queue.py:87-102 | If the group polls alone, the message is out if and only if it has polled more than j rounds plus the cursor's distance. |
| `MemoryQueues.RemainderIsMod` | backend/queue/memory_queue.py:63-67 | The partition arithmetic by repeated subtraction is the remainder of `%`, for negative requests too. |
| `MemoryQueues.TargetIsRemainder` | backend/queue/memory_queue.py:62-67 | A message goes to the requested partition modulo their number, and without a request to the number of messages so far modulo theirs. |
| `MemoryQueues.PollsStartAtZero` | backend/queue/memory_queue.py:92-95 | The k-th poll of any group, counted from 0, looks at partition k modulo their number, whatever producers and other groups do. |
| `LoadBalancers.LoadBalancer.RegisterWorkers` | backend/agents/load_balancer.py:33-51 | The two loops register the workers that the specification function registers. |
| `LoadBalancers.RegistrationCounts` | backend/agents/load_balancer.py:33-51 | Exactly the configured numbers of CPU and IO workers result, all idle, unloaded and under different names. |
| `LoadBalancers.WorkersInOrder` | backend/agents/load_balancer.py:33-51 | The workers are worker_cpu_1, worker_cpu_2, ... and then worker_io_1, worker_io_2, ..., in this order. |
| `LoadBalancers.WorkersStartFresh` | backend/agents/load_balancer.py:33-51 | Each starts under its own id, idle, unloaded, without a task and without outcomes. |
| `LoadBalancers.LoadBalancer.AssignWorker` | backend/agents/load_balancer.py:53-88 | The store afterwards, and the worker chosen: the least loaded of the type the partition asks for, with its load raised by 25 up to 100. |
| `LoadBalancers.LoadBalancer.ReleaseWorker` | backend/agents/load_balancer.py:90-106 | The store afterwards: idle, load lowered by 25 down to 0, one outcome counted; an unknown worker changes nothing. |
| `Accounting.LoadLaw` | backend/agents/load_balancer.py:66-106 | In every reachable state load = 25 * (in flight - debt) within 0..100, with a debt of clamped assignments that is never negative; a worker with nothing in flight has load 0 and is not busy. |
| `LoadExactness.LoadsExactIff` | backend/agents/load_balancer.py:61-72 | Loads are exactly 25 per task in flight throughout a run if and only if at most four tasks per worker of the type are ever in flight. |
| `Scenarios.LoadCanBeInexact` | backend/agents/load_balancer.py:66-72 | For every planned workload with more than four chunks per IO worker, a run with everybody in turn that ends with inexact loads. |
| `WorkerStates.FlagFollowsLatestEvent` | backend/agents/load_balancer.py:66-106 | A worker is busy, with the task it shows, exactly when the latest event about it is that task's assignment. |
| `WorkerStates.IdleMeansFreeIff` | backend/agents/load_balancer.py:66-106 | Throughout a run a worker is busy exactly when it has work in flight, if and only if no release happens while it has two or more tasks in flight. |
| `Scenarios.IdleWithWorkInFlight` | backend/agents/load_balancer.py:96-106 | For every planned workload with more chunks than IO workers, a run with everybody in turn that ends with an idle worker that still has a task in flight. |
| `Accounting.WorkerAccounting` | backend/main.py:93-143 | In every reachable state assignments = completed + failed + in flight per worker; completions match the execution history; failures match the failure log up to failures still on their way to the retry agent. |
| `Accounting.TasksRunOnTheirType` | backend/agents/load_balancer.py:58-61 | An assigned or running task sits on a registered worker of the type its partition asks for. |
| `Workloads.StagesMeetTheirWorkers` | backend/agents/load_balancer.py:58-61 | In every run of a planned workload an IO task is with an IO worker and any other task with a CPU worker. |
| `RetryAgents.RetryAgent.ClassifyFailure` | backend/agents/retry_agent.py:51-60 | Permanent if and only if a permanent pattern occurs and no transient one does, ignoring case. |
| `RetryAgents.ClassificationByWords` | backend/agents/retry_agent.py:21-60 | The eight words spelled out, in lower case, and when they make a failure permanent. |
| `RetryAgents.WorkersFailures` | backend/agents/worker_agent.py:98-104 | Of the five errors that workers report, MemoryError and ParseError are permanent and the other three transient. |
| `Text.LowerSpells` | backend/agents/retry_agent.py:54-57 | Lower-casing moves the letters A to Z 32 places and nothing else. |
| `Text.ContainsIff` | backend/agents/retry_agent.py:53-58 | A text contains a word if and only if it consists of something, the word and something, either of which may be empty. |
| `RetryAgents.RetryAgent.HandleFailure` | backend/agents/retry_agent.py:72-139 | The store afterwards (failure log, task record if the task is stored, retry counter) and the decision returned, for stored and unknown tasks alike. |
| `RetryAgents.DecisionIsRecorded` | backend/agents/retry_agent.py:78-139 | Dead letter and FAILED exactly for permanent failures and used-up budgets; otherwise CREATED, one retry more, no worker, and a delay from the formula; one log entry for the right task and worker, the retry counter in step, nothing else changed, and for an unknown task no record changed at all. |
| `RetryAgents.BackoffIsPower` | backend/agents/retry_agent.py:67 | Doubling per retry is base * 2^retry. |
| `RetryAgents.DelayIsFormula` | backend/agents/retry_agent.py:62-70 | The delay is base * 2^retry plus the jitter, cut off at the cap, and rounded. |
| `RetryAgents.RoundTenthIsNearest` | backend/agents/retry_agent.py:70 | Rounding gives the nearest tenth, and of two equally near ones the even one. |
| `RetryAgents.BackoffMonotoneIff` | backend/agents/retry_agent.py:62-70 | The delays handed out never shrink from one retry to the next, whatever the jitters, if and only if base >= 0 and round(min(base + 1, cap)) <= round(min(2 * base, cap)). |
| `RetryAgents.SecondCatchesUpWhen` | backend/agents/retry_agent.py:62-70 | The second condition holds whenever base >= 1 or cap <= 2 * base. |
| `RetryAgents.DelayIsCapped` | backend/agents/retry_agent.py:62-70 | No delay exceeds the rounded cap, and so none exceeds a cap given in tenths. |
| `RetryAgents.TotalDelayGeometric` | backend/agents/retry_agent.py:62-70 | All delays of one task together are at most base * (2^R - 1) plus 1.05 seconds per retry. |
| `RetryAgents.TotalDelayCapped` | backend/agents/retry_agent.py:62-70 | And at most R times the cap, rounded if it is not given in tenths. |
| `Accounting.RetryConservation` | backend/agents/retry_agent.py:72-139 | In every reachable state no task exceeds its retries, the global counter is the sum of the tasks' counters, and logged failures = retries + dead letters. |
| `Critics.Critic.Validate` | backend/agents/critic.py:33-92 | The store afterwards and the verdict. |
| `Critics.Critic.CheckDependencies` | backend/agents/critic.py:94-105 | True if and only if every dependency is stored and VALIDATED or STORED. |
| `Critics.ScoreNeverDecides` | backend/agents/critic.py:40-59 | The score threshold and its random part never matter: a result is accepted if and only if it exists, its dependencies are settled and its time is in bounds; scores stay within 0..10 and full marks have an exact condition. |
| `Critics.ScoreIsFullMarksLess` | backend/agents/critic.py:107-147 | A result in bounds scores 10 less half a point for each of 2, 5 and 10 seconds reached, a point without output, and what the random part is short of 1. |
| `Critics.ScoresAreAttained` | backend/agents/critic.py:107-147 | Every score from 6.8 to 10 occurs for an accepted result. |
| `Critics.FasterScoresMore` | backend/agents/critic.py:135-142 | All else equal a faster result never scores less, and it scores half a point more for each mark it beats. |
| `Exclusive.CriticNeverBlamesDependencies` | backend/agents/critic.py:44-59 | Without overlap the critic accepts a completed result if and only if it exists and its time is in bounds. |
| `EndToEnd.ProperResultsAreAccepted` | backend/agents/critic.py:33-92 | Without overlap, if workers return results with times in bounds, nothing is ever rejected. |
| `Schedulers.Scheduler.NextPartition` | backend/agents/scheduler.py:44-50 | Returns the topic's counter (0 at first) and moves it on modulo 4. |
| `Schedulers.Scheduler.ScheduleSingle` | backend/agents/scheduler.py:87-125 | Counter, queue and store after one task has gone out, and the placement reported. |
| `Schedulers.Scheduler.Schedule` | backend/agents/scheduler.py:52-79 | The while/for loops compute the fixpoint function on the pending list plus the new tasks, and end. |
| `Schedulers.Scheduler.RetryPending` | backend/agents/scheduler.py:81-85 | The same fixpoint on the pending list alone. |
| `Schedulers.SettleIsComplete` | backend/agents/scheduler.py:52-79 | Scheduling conserves the tasks as a multiset and leaves no pending task ready in the store it ends with, whatever is pending. |
| `Schedulers.SettleIsFilter` | backend/agents/scheduler.py:52-79 | When no pending task is settled itself, repeating until nothing moves is one order-preserving filter by readiness, and nothing but the queued tasks' records changes. |
| `Schedulers.SettleKeepsLaw` | backend/agents/scheduler.py:44-50 | Scheduling keeps the round-robin law: message k of a topic is in partition k mod 4 at offset k div 4. |
| `Schedulers.PartitionsAreBalanced` | backend/agents/scheduler.py:44-50 | Under the law partition sizes differ by at most one and 4 * offset + partition recovers the production order. |
| `PlacementInRuns.RunKeepsPlacement` | backend/main.py:241-247 | The round-robin law holds in every state of every run of a started-up system. |
| `PlacementInRuns.RecordLeadsToMessage` | backend/agents/scheduler.py:87-125 | The coordinates in a released task's record lead to exactly its own message on the topic of its type, and 4 * offset + partition is its place in the production order. |
| `PlacementInRuns.ReleasedTaskIsQueued` | backend/agents/scheduler.py:87-125 | Every released task's record leads to an envelope on its type's topic that carries the stored task's id, description, type, priority and dependencies, and its own coordinates. |
| `PlacementInRuns.EveryTaskIsAccountedFor` | backend/agents/scheduler.py:52-85 | In every reachable state pending list and placements together are the plan, each task once: none is lost and none is produced twice. |
| `Planners.CreateChunkTasks` | backend/agents/planner.py:115-139 | The nested loops build the seven stage tasks of a chunk with their dependencies. |
| `Planners.Plan` | backend/agents/planner.py:85-113 | The loops build the specified plan, the reports found by the substring test included. |
| `Planners.PlanIsValid` | backend/agents/planner.py:85-139 | For every n: 7n + 1 tasks with distinct ids, and every dependency is planned earlier. |
| `Planners.PartitionFollowsType` | backend/agents/planner.py:18-68 | The partition is "io" exactly for IO tasks and "cpu" for all others, and every task has the workload's priority. |
| `Planners.StageTypes` | backend/agents/planner.py:18-68 | The types of the seven stages of every chunk, IO, CPU, CPU, IO, IO, CPU, IO_CPU, and their partitions. |
| `Planners.StageIdsAndNeeds` | backend/agents/planner.py:18-139 | The id of each stage of every chunk, and the ids of the stages of the same chunk that it waits for. |
| `Planners.StageDescriptions` | backend/agents/planner.py:18-139 | What each stage of every chunk is described as. |
| `Planners.PlanEnds` | backend/agents/planner.py:94-113 | The aggregation's id, description, type, partition and priority, and the n reports it waits for. |
| `Text.DecimalStandsFor` | backend/agents/planner.py:120 | The numeral in an id stands for the chunk's number and has no leading zero. |
| `Planners.TaskIdsDiffer` | backend/agents/planner.py:120 | Two stage ids are equal only for the same stage and the same chunk. |
| `Planners.OnlyReportsAreReports` | backend/agents/planner.py:99 | The substring test picks out the report stage and no other, for every chunk number. |
| `Planners.ReportsOf` | backend/agents/planner.py:98-105 | The aggregation depends on exactly the n reports, in chunk order. |
| `Workloads.AggregateDependsOnAll` | backend/agents/planner.py:94-139 | Every other planned task is a direct or indirect dependency of the aggregation. |
| `Orchestration.Orchestrator.Assign` | backend/main.py:67-83 | The code up to the first suspension, and the second attempt after the sleep, equal the action Assign, both no-worker branches included. |
| `Orchestration.Orchestrator.Begin` | backend/main.py:85-90 | Equals the action Begin. |
| `Orchestration.Orchestrator.Finish` | backend/main.py:90-148 | Equals the action Finish: release first, then FAILED, or COMPLETED and a history record. |
| `Orchestration.Orchestrator.Recover` | backend/main.py:107-120 | Equals the action Recover: dead letter ends the coroutine, retry leads to the sleep. |
| `Orchestration.Orchestrator.Respawn` | backend/main.py:122-128 | Equals the action Respawn: the coroutine ends and a new one takes over. |
| `Orchestration.Orchestrator.Judge` | backend/main.py:150-157 | Equals the action Judge. |
| `Orchestration.Orchestrator.ProcessQueued` | backend/main.py:172-179 | One new coroutine for every QUEUED task, in insertion order, and nothing else. |
| `Orchestration.Orchestrator.Wake` | backend/main.py:159-164 | Equals the action Wake: schedule what became ready, then spawn. |
| `Orchestration.Orchestrator.StartUp` | backend/main.py:241-250 | Start-up creates the topics and registers the workers that runs begin with. |
| `Workloads.StartUpTopics` | backend/main.py:241-247 | The five topics by name, each with four empty partitions. |
| `Orchestration.Orchestrator.StorePlan` | backend/main.py:193-197 | The plan is made and its tasks are stored, in plan order; nothing else changes. |
| `Orchestration.Orchestrator.ScheduleTasks` | backend/main.py:209-211 | The scheduler adds the tasks to those it holds and settles the list. |
| `Orchestration.Orchestrator.RunWorkload` | backend/main.py:182-225 | The three parts of a submission in a row: store, schedule, spawn. |
| `Orchestration.SubmittedIsInitial` | backend/main.py:182-225 | On a started-up system nobody can run between the three parts, and the state after them is an initial state of the step system. |
| `Orchestration.Orchestrator.RunToRest` | backend/main.py:64-179 | Resuming live coroutines in any order comes to an end, without live coroutines, and is a run of the step system. |
| `Orchestration.Serve` | backend/main.py:182-250 | From an empty process to rest: what happens is a run of the step system. |
| `Lifecycle.StepShape` | backend/main.py:64-164 | Every action but waking and respawning is one row of the transition table, changes one task's record, and adds, removes or retypes no worker. |
| `Effects.AssignWrites` | backend/main.py:67-83 | The whole state after an assignment: the first least loaded worker of the type is busy with the task and up to 25 percent more loaded, and the task is ASSIGNED to it. |
| `Effects.AssignWaits` | backend/main.py:68-77 | Without such a worker the coroutine waits once and gives up the second time, and nothing is written. |
| `Effects.BeginWrites` | backend/main.py:85-90 | The whole state after the start: the task is RUNNING. |
| `Effects.CompletionWrites` | backend/main.py:129-143 | The whole state after a completed execution: the worker handed back, time and payload in the record, and a history entry with task, worker and time. |
| `Effects.FailureWrites` | backend/main.py:92-101 | The whole state after a failed one: the worker handed back, time and error in the record. |
| `Effects.DeadLetterWrites` | backend/agents/retry_agent.py:78-113 | The whole state after a failure is given up. |
| `Effects.RetryWrites` | backend/agents/retry_agent.py:115-139 | The whole state after a retry is granted, with the delay to sleep. |
| `Effects.RespawnWrites` | backend/main.py:122-128 | The whole state after the sleep: one coroutine ends, a new one for the same task begins. |
| `Effects.JudgeWrites` | backend/agents/critic.py:33-92 | The whole state after the critic's answer, with the score in numbers. |
| `Lifecycle.ReleaseEffect` | backend/main.py:159-179 | One wake-up's scheduling turns exactly the ready pending tasks QUEUED, changes no other record, and leaves nothing ready behind. |
| `Lifecycle.RunKeepsLifecycle` | backend/main.py:64-225 | The lifecycle invariant holds in every state of every run: each released task's state is carried by a coroutine or final, pending tasks are untouched, no wake-up is missing. |
| `Lifecycle.NeverPartitionedOrStored` | backend/main.py:64-225 | In every reachable state no task is PARTITIONED or STORED. |
| `Quiescence.NoLostWakeUp` | backend/main.py:151-164 | In every reachable state, if a pending task is ready, some coroutine sits between the critic and the scheduler; the system is not at rest. |
| `Quiescence.QuiescentFates` | backend/main.py:64-179 | At rest every task is validated, or blocked (dead-lettered, rejected, queued without a worker), or untouched with a blocked direct or indirect dependency. |
| `Quiescence.NothingBlockedMeansAllValidated` | backend/main.py:64-179 | At rest, if nothing is blocked, everything is validated. |
| `Quiescence.RestingTotals` | backend/agents/scheduler.py:127-129 | At rest total = validated + failed + completed but rejected + queued + pending count. |
| `Precedence.DependenciesComeFirst` | backend/agents/scheduler.py:65-74 | In the log of every run, whenever a task is assigned or started, each of its direct and indirect dependencies has been validated before. |
| `Precedence.PendingIsUntouched` | backend/agents/scheduler.py:65-74 | A pending task is as planned, never had a coroutine and never began. |
| `Termination.StepDecreases` | backend/main.py:64-179 | Every step strictly decreases a four-part measure: tasks not taken up, retries left, stages left on taken tasks, stages left on queued ones. |
| `Termination.EveryRunEnds` | backend/main.py:64-179 | Every infinite sequence of states that starts properly has a point where no step was taken: no workload runs for ever. |
| `Termination.StuckMeansQuiescent` | backend/main.py:64-179 | A step is possible if and only if some coroutine is live. |
| `Exclusive.RunKeepsExclusive` | backend/main.py:64-179 | Without overlap: the recorded state is the one the coroutine has reached, released tasks keep validated dependencies, dead-lettered tasks stay failed. |
| `Exclusive.LifecycleFollowsDiagram` | backend/main.py:64-164 | Without overlap every step moves a task along the diagram CREATED, QUEUED, ASSIGNED, RUNNING, COMPLETED, VALIDATED, with FAILED, CREATED, ASSIGNED for retries. |
| `Exclusive.ValidatedForGood` | backend/main.py:150-157 | Without overlap VALIDATED is never left. |
| `Exclusive.AttemptsBounded` | backend/main.py:85-128 | Without overlap a task is executed at most once more than its retries allow, and a validated one exactly once more than it was retried. |
| `EndToEnd.AncestorsAreValidated` | backend/main.py:159-164 | Without overlap all direct and indirect dependencies of a released task are, and stay, validated. |
| `EndToEnd.ValidatedIffNothingFailed` | backend/main.py:64-179 | At rest without overlap, a task is validated if and only if neither it nor any direct or indirect dependency was dead-lettered, rejected or without a worker. |
| `EndToEnd.AllValidatedIffNothingFailed` | backend/main.py:64-179 | At rest without overlap, everything is validated if and only if nothing failed. |
| `Records.HistoryRepeatsTheLog` | backend/main.py:130-143 | In every reachable state the execution history lists exactly the announced completions, task by task and worker by worker, in order. |
| `Records.RecordsAgreeWithHistory` | backend/main.py:132-143 | Without overlap the time in the record of a COMPLETED or VALIDATED task is that of its latest history entry. |
| `Records.DeadLettersAreJustified` | backend/agents/retry_agent.py:78-113 | In every reachable state the failure log has one entry per decision, in order, classified by the patterns, and the n-th decision is a dead letter if and only if the n-th failure was permanent or came after the last granted retry. |
| `Records.RecordsShowTheCoroutine` | backend/main.py:79-136 | Without overlap a task's record shows its coroutine's worker, then that coroutine's result and time, or its error and time, or after the retry decision no worker and a transient failure. |
| `Records.ValidatedTasksCarryTheirResult` | backend/agents/critic.py:40-66 | Without overlap a validated task's record holds a result, an execution time in bounds and a score of at least 6.8. |
| `Overlap.WakeKeepsApartIff` | backend/main.py:172-179 | A wake-up keeps coroutines apart if and only if no QUEUED task that could run has a live one. |
| `Overlap.ExclusiveIffWakesAreGuarded` | backend/main.py:172-179 | A run is free of overlap if and only if every wake-up finds no QUEUED task that could run with a live coroutine: the check the comment announces. |
| `Overlap.CanEndApart` | backend/main.py:64-179 | Every run without overlap can be continued to rest without overlap. |
| `DoubleProcessing.TakenUpTwice` | backend/main.py:159-179 | In every reachable state in which one coroutine is about to wake up and another is on its way to a ready QUEUED task with a worker, coroutines moving as they like can have this task VALIDATED and then ASSIGNED again. |
| `DoubleProcessing.TakenUpTwiceInTurn` | backend/main.py:159-179 | In every such state in which no dependency of the task is about to be taken up again, coroutines moving in turn can have it VALIDATED by one coroutine and then COMPLETED by the other. |
| `DoubleProcessing.OverwritableIff` | backend/main.py:159-179 | After any run without overlap, and whether coroutines move as they like or in turn: some continuation leaves VALIDATED if and only if a continuation without overlap leads to a state in which one coroutine is about to wake up and another is on its way to a QUEUED task with a worker. |
| `DoubleProcessing.OverwritingNeedsOverlap` | backend/main.py:172-179 | Whenever VALIDATED is left in any run, an earlier wake-up doubled a coroutine, in such a state and with no overlap before it. |
| `Scenarios.ValidatedCanBeOverwritten` | backend/main.py:159-179 | For every number of chunks and of workers, a run of the planned workload with everybody in turn in which the first chunk's pattern detection is VALIDATED and goes back to COMPLETED. |
| `Workloads.RunHoldsPlan` | backend/main.py:195-197 | In every reachable state the store holds exactly the planned tasks, each as planned. |
| `Workloads.RunKeepsStaff` | backend/main.py:249-250 | What the registered workers can run they can run in every reachable state. |
| `Workloads.AggregateIffNoDeadLetter` | backend/main.py:182-225 | For every n, at rest without overlap and with proper results, the final aggregation is validated if and only if no task of the workload was dead-lettered. |
| `Workloads.PlannedWorkloadEnds` | backend/main.py:182-225 | For every n, at rest without overlap and with proper results, all 7n + 1 tasks are validated if and only if none was dead-lettered. |
| `SmoothRuns.CanEndSmoothly` | backend/main.py:64-179 | Every run without overlap, failures and improper results so far can be continued to rest in the same way. |
| `Workloads.PlannedRunExists` | backend/main.py:182-225 | For every workload, pool with a worker of each type and settings there is a run without overlap, with proper results and no dead letter, that ends with all 7n + 1 tasks validated. |

## Left out

* Exceptions and cancellation: the handler in `process_single_task`, and the
  cancelling of coroutines at shutdown.
* The monitor, the WebSocket manager and the HTTP endpoints; they matter only as
  the places where coroutines are suspended.
* The Kafka queue and the worker entry point; the broker behind them is not part
  of this model.
* The simulated work: a worker returns any result at any time.
* Clocks: time stamps, uptime and the metrics history. The summary takes the time
  elapsed as an argument; the rounding of its figures to text is left out.
* Orchestration.Orchestrator.RunWorkload: runs its three parts in a row. On a
  started-up system that is all that can happen; on a store in use the suspensions
  between the parts (`backend/main.py:199-207`) let other coroutines run, which
  the three methods allow for and this one does not.
* Several workloads on one store: the theorems about runs start from a store that
  has seen no workload. Task ids repeat from workload to workload.
* Workers going offline: nothing in the modelled code marks a worker so; the
  choice of a worker skips those that are.
* MemoryQueues.InMemoryQueue.PollRound: a round in which nobody interferes, though
  the generator yields between its passes. `Poll` is one pass; `BoundedWaiting` and
  `DeliveryIsOrderedAndUnique` allow everybody to interfere between passes.
* DoubleProcessing.TakenUpTwice: its continuation lets a new coroutine wait at its
  start while another task is worked on, which the event loop does not do;
  `TakenUpTwiceInTurn` is the result that keeps the order.
* The running flag of the queue (`start`, `stop`), and `get_all_depths`, which
  repeats `get_queue_depth` for every topic.
* The dictionaries that the agents return for display (`get_plan_output`, the
  utilization snapshot, the critic's list of reasons).
* The front end, and the second application in `linkloom-plus`.
