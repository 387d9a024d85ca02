/**
 backend/agents/planner.py: seven stages for every chunk of a workload, and one
 aggregation that waits for all reports.
 */
module Planners {
  import opened Collections
  import opened Models
  import opened Schedulers
  import opened Pipelines
  import opened Text

  datatype Template = Template(
    stage: string, description: string, taskType: TaskType, partition: string, dependsOn: seq<string>)

  const REPORT := "generate_report"

  const AGGREGATE := "task_aggregate_final"

  const PIPELINE_STAGES: seq<Template> := [
    Template("extract_ips", "Extract IP addresses from log chunk", IO, "io", []),
    Template("deduplicate", "Deduplicate extracted entries", CPU, "cpu", ["extract_ips"]),
    Template("classify", "Classify IPs as internal/external", CPU, "cpu", ["deduplicate"]),
    Template("blacklist_check", "Check against blacklist API", IO, "io", ["classify"]),
    Template("geolocation", "Geolocation lookup for external IPs", IO, "io", ["classify"]),
    Template("pattern_detect", "Detect suspicious access patterns", CPU, "cpu", ["blacklist_check", "geolocation"]),
    Template("generate_report", "Generate CSV + PDF report", IO_CPU, "cpu", ["pattern_detect"])]

  function TaskId(stage: string, chunk: nat): string {
    "task_" + stage + "_chunk_" + Decimal(chunk)
  }

  function StageIds(stages: seq<string>, chunk: nat): (r: seq<string>)
    ensures |r| == |stages| && forall k :: 0 <= k < |stages| ==> r[k] == TaskId(stages[k], chunk)
  {
    seq(|stages|, k requires 0 <= k < |stages| => TaskId(stages[k], chunk))
  }

  function StageTask(t: Template, chunk: nat, priority: int): TaskSpec {
    TaskSpec(TaskId(t.stage, chunk), t.description + " (chunk " + Decimal(chunk) + ")", t.taskType, priority,
             StageIds(t.dependsOn, chunk), t.partition)
  }

  function ChunkTasks(chunk: nat, priority: int): (r: seq<TaskSpec>)
    ensures |r| == 7 && forall k :: 0 <= k < 7 ==> r[k] == StageTask(PIPELINE_STAGES[k], chunk, priority)
  {
    seq(7, k requires 0 <= k < 7 => StageTask(PIPELINE_STAGES[k], chunk, priority))
  }

  /** The tasks of chunks 1..n. */
  function AllChunks(n: nat, priority: int): (r: seq<TaskSpec>)
    ensures |r| == 7 * n
  {
    if n == 0 then [] else AllChunks(n - 1, priority) + ChunkTasks(n, priority)
  }

  function IsReport(): TaskSpec -> bool {
    (t: TaskSpec) => Contains(t.taskId, REPORT)
  }

  function Aggregation(reports: seq<string>, priority: int): TaskSpec {
    TaskSpec(AGGREGATE, "Aggregate all chunk reports into final output", CPU, priority, reports, "cpu")
  }

  /** Everything planned for n chunks. */
  function PlanOf(n: nat, priority: int): (r: seq<TaskSpec>)
    ensures |r| == 7 * n + 1
  {
    var tasks := AllChunks(n, priority);
    tasks + [Aggregation(Ids(Filter(tasks, IsReport())), priority)]
  }

  // ---- The planner's loops ----

  method CreateChunkTasks(chunk: nat, priority: int) returns (tasks: seq<TaskSpec>)
    ensures tasks == ChunkTasks(chunk, priority)
  {
    tasks := [];
    for k := 0 to |PIPELINE_STAGES|
      invariant tasks == ChunkTasks(chunk, priority)[..k]
    {
      var stage := PIPELINE_STAGES[k];
      var dependencies: seq<string> := [];
      for d := 0 to |stage.dependsOn|
        invariant dependencies == StageIds(stage.dependsOn, chunk)[..d]
      {
        dependencies := dependencies + ["task_" + stage.dependsOn[d] + "_chunk_" + Decimal(chunk)];
      }
      assert dependencies == StageIds(stage.dependsOn, chunk);
      tasks := tasks + [TaskSpec("task_" + stage.stage + "_chunk_" + Decimal(chunk),
                                 stage.description + " (chunk " + Decimal(chunk) + ")",
                                 stage.taskType, priority, dependencies, stage.partition)];
    }
  }

  lemma IdsAppend(a: seq<TaskSpec>, b: seq<TaskSpec>)
    ensures Ids(a + b) == Ids(a) + Ids(b)
  {
  }

  lemma OneMoreReport(tasks: seq<TaskSpec>, k: nat)
    requires k < |tasks|
    ensures Ids(Filter(tasks[..k + 1], IsReport())) ==
            Ids(Filter(tasks[..k], IsReport())) + if IsReport()(tasks[k]) then [tasks[k].taskId] else []
  {
    assert tasks[..k + 1] == tasks[..k] + [tasks[k]];
    FilterAppend(tasks[..k], [tasks[k]], IsReport());
    IdsAppend(Filter(tasks[..k], IsReport()), Filter([tasks[k]], IsReport()));
  }

  method Plan(totalChunks: nat, priority: int) returns (tasks: seq<TaskSpec>)
    ensures tasks == PlanOf(totalChunks, priority)
  {
    tasks := [];
    for chunk := 1 to totalChunks + 1
      invariant tasks == AllChunks(chunk - 1, priority)
    {
      var chunkTasks := CreateChunkTasks(chunk, priority);
      tasks := tasks + chunkTasks;
    }
    var reports: seq<string> := [];
    for k := 0 to |tasks|
      invariant reports == Ids(Filter(tasks[..k], IsReport()))
    {
      OneMoreReport(tasks, k);
      if Contains(tasks[k].taskId, "generate_report") {
        reports := reports + [tasks[k].taskId];
      }
    }
    assert tasks[..|tasks|] == tasks;
    tasks := tasks + [Aggregation(reports, priority)];
  }

  // ---- Ids ----

  /** The sixth and eighth characters of a task id tell the stage. */
  lemma StageLetters(k: nat, chunk: nat)
    requires k < 7
    ensures var id := TaskId(PIPELINE_STAGES[k].stage, chunk);
            && |id| > 7
            && id[5] == ['e', 'd', 'c', 'b', 'g', 'p', 'g'][k]
            && (id[7] == 'n' <==> k == 6)
  {
    var id := TaskId(PIPELINE_STAGES[k].stage, chunk);
    assert id[5] == PIPELINE_STAGES[k].stage[0] && id[7] == PIPELINE_STAGES[k].stage[2];
  }

  lemma TaskIdsDiffer(k: nat, c: nat, l: nat, d: nat)
    requires k < 7 && l < 7 && TaskId(PIPELINE_STAGES[k].stage, c) == TaskId(PIPELINE_STAGES[l].stage, d)
    ensures k == l && c == d
  {
    StageLetters(k, c);
    StageLetters(l, d);
    assert k == l;
    var prefix := "task_" + PIPELINE_STAGES[k].stage + "_chunk_";
    assert TaskId(PIPELINE_STAGES[k].stage, c)[|prefix|..] == Decimal(c);
    assert TaskId(PIPELINE_STAGES[l].stage, d)[|prefix|..] == Decimal(d);
    DecimalInjective(c, d);
  }

  lemma StagePrefix(k: nat)
    requires k < 6
    ensures var prefix := "task_" + PIPELINE_STAGES[k].stage + "_chunk_";
            forall i :: 0 <= i < |prefix| && prefix[i] == 'g' ==> i + 2 < |prefix| && prefix[i + 2] != 'n'
  {
    var stage := PIPELINE_STAGES[k].stage;
    var head, tail := "task_", "_chunk_";
    assert forall i :: 0 <= i < |head| ==> head[i] != 'g';
    assert forall i :: 0 <= i < |tail| ==> tail[i] != 'g';
    assert forall i :: 0 <= i < |stage| && stage[i] == 'g' ==> k == 4 && i == 0;
  }

  /** The word is spelled with an n two places after its g; no stage but the report's has that. */
  lemma NoReportInside(k: nat, chunk: nat, i: nat)
    requires k < 6 && i + |REPORT| <= |TaskId(PIPELINE_STAGES[k].stage, chunk)|
    ensures !OccursAt(TaskId(PIPELINE_STAGES[k].stage, chunk), REPORT, i)
  {
    var id := TaskId(PIPELINE_STAGES[k].stage, chunk);
    var prefix := "task_" + PIPELINE_STAGES[k].stage + "_chunk_";
    assert id == prefix + Decimal(chunk);
    StagePrefix(k);
    assert id[i] == 'g' ==> i < |prefix| && id[i + 2] != 'n';
    var found := id[i..i + |REPORT|];
    assert found[0] == id[i] && found[2] == id[i + 2];
    assert REPORT[0] == 'g' && REPORT[2] == 'n';
  }

  /** The substring test picks out the reports and nothing else. */
  lemma OnlyReportsAreReports(k: nat, chunk: nat, priority: int)
    requires k < 7
    ensures IsReport()(StageTask(PIPELINE_STAGES[k], chunk, priority)) <==> k == 6
  {
    var id := TaskId(PIPELINE_STAGES[k].stage, chunk);
    if k == 6 {
      assert id[5..5 + |REPORT|] == REPORT;
      assert OccursAt(id, REPORT, 5);
    } else if Contains(id, REPORT) {
      var i :| 0 <= i <= |id| - |REPORT| && OccursAt(id, REPORT, i);
      NoReportInside(k, chunk, i);
    }
  }

  lemma {:induction false} FilterOnlyLast<T>(s: seq<T>, keep: T -> bool)
    requires s != [] && keep(s[|s| - 1]) && forall k :: 0 <= k < |s| - 1 ==> !keep(s[k])
    ensures Filter(s, keep) == [s[|s| - 1]]
  {
    if |s| == 1 {
    } else {
      FilterOnlyLast(s[1..], keep);
    }
  }

  function ReportIds(n: nat): (r: seq<string>)
    ensures |r| == n && forall c :: 0 <= c < n ==> r[c] == TaskId(REPORT, c + 1)
  {
    seq(n, c requires 0 <= c < n => TaskId(REPORT, c + 1))
  }

  /** The aggregation waits for exactly the n reports, in chunk order. */
  lemma {:induction false} ReportsOf(n: nat, priority: int)
    ensures Ids(Filter(AllChunks(n, priority), IsReport())) == ReportIds(n)
  {
    if n == 0 {
    } else {
      ReportsOf(n - 1, priority);
      var chunk := ChunkTasks(n, priority);
      forall k | 0 <= k < 7
        ensures IsReport()(chunk[k]) <==> k == 6
      {
        OnlyReportsAreReports(k, n, priority);
      }
      FilterOnlyLast(chunk, IsReport());
      FilterAppend(AllChunks(n - 1, priority), chunk, IsReport());
      IdsAppend(Filter(AllChunks(n - 1, priority), IsReport()), [chunk[6]]);
    }
  }

  lemma {:induction false} ChunkAt(n: nat, priority: int, c: nat, k: nat)
    requires c < n && k < 7
    ensures AllChunks(n, priority)[7 * c + k] == StageTask(PIPELINE_STAGES[k], c + 1, priority)
  {
    if c < n - 1 {
      ChunkAt(n - 1, priority, c, k);
    } else {
      assert AllChunks(n, priority)[7 * c + k] == ChunkTasks(n, priority)[k];
    }
  }

  /** Stage k of chunk c + 1 is planned at position 7c + k. */
  lemma StageAt(n: nat, priority: int, c: nat, k: nat)
    requires c < n && k < 7
    ensures 7 * c + k < 7 * n && PlanOf(n, priority)[7 * c + k] == StageTask(PIPELINE_STAGES[k], c + 1, priority)
  {
    ChunkAt(n, priority, c, k);
  }

  /** The aggregation comes last and waits for the n reports. */
  lemma AggregationAt(n: nat, priority: int)
    ensures PlanOf(n, priority)[7 * n] == Aggregation(ReportIds(n), priority)
  {
    ReportsOf(n, priority);
  }

  /** The partition names the queue's kind, and the workload's priority reaches every task. */
  lemma {:induction false} PartitionFollowsType(n: nat, priority: int, j: nat)
    requires j < |PlanOf(n, priority)|
    ensures var task := PlanOf(n, priority)[j];
            && (task.partition == "io" <==> task.taskType == IO) && (task.partition in {"io", "cpu"})
            && task.priority == priority
  {
    if j < 7 * n {
      StageAt(n, priority, j / 7, j % 7);
    } else {
      AggregationAt(n, priority);
    }
  }

  // ---- The plan is well formed ----

  lemma StageIsNotAggregate(k: nat, chunk: nat)
    requires k < 7
    ensures TaskId(PIPELINE_STAGES[k].stage, chunk) != AGGREGATE
  {
    StageLetters(k, chunk);
    assert AGGREGATE[5] == 'a';
  }

  lemma PlannedIdsDiffer(n: nat, priority: int, i: nat, j: nat)
    requires i < j <= 7 * n
    ensures PlanOf(n, priority)[i].taskId != PlanOf(n, priority)[j].taskId
  {
    StageAt(n, priority, i / 7, i % 7);
    if j == 7 * n {
      StageIsNotAggregate(i % 7, i / 7 + 1);
    } else {
      StageAt(n, priority, j / 7, j % 7);
      if PlanOf(n, priority)[i].taskId == PlanOf(n, priority)[j].taskId {
        TaskIdsDiffer(i % 7, i / 7 + 1, j % 7, j / 7 + 1);
      }
    }
  }

  /** A stage depends on earlier stages only. */
  lemma EarlierStage(k: nat, d: nat) returns (m: nat)
    requires k < 7 && d < |PIPELINE_STAGES[k].dependsOn|
    ensures m < k && PIPELINE_STAGES[m].stage == PIPELINE_STAGES[k].dependsOn[d]
  {
    m := if k <= 3 then k - 1 else if k == 4 then 2 else if k == 5 then 3 + d else 5;
  }

  lemma PrefixId(plan: seq<TaskSpec>, i: nat, j: nat)
    requires i < j <= |plan|
    ensures plan[i].taskId in Ids(plan[..j])
  {
    assert Ids(plan[..j])[i] == plan[i].taskId;
  }

  lemma StageDependency(n: nat, priority: int, c: nat, k: nat, d: nat)
    requires c < n && k < 7 && d < |PIPELINE_STAGES[k].dependsOn|
    ensures |PlanOf(n, priority)[7 * c + k].dependencies| == |PIPELINE_STAGES[k].dependsOn|
    ensures PlanOf(n, priority)[7 * c + k].dependencies[d] in Ids(PlanOf(n, priority)[..7 * c + k])
  {
    var m := EarlierStage(k, d);
    StageAt(n, priority, c, k);
    StageAt(n, priority, c, m);
    PrefixId(PlanOf(n, priority), 7 * c + m, 7 * c + k);
  }

  lemma AggregateDependency(n: nat, priority: int, d: nat)
    requires d < n
    ensures PlanOf(n, priority)[7 * n].dependencies == ReportIds(n)
    ensures ReportIds(n)[d] in Ids(PlanOf(n, priority)[..7 * n])
  {
    AggregationAt(n, priority);
    StageAt(n, priority, d, 6);
    PrefixId(PlanOf(n, priority), 7 * d + 6, 7 * n);
  }

  lemma DependencyIsEarlier(n: nat, priority: int, j: nat, d: nat)
    requires j <= 7 * n && d < |PlanOf(n, priority)[j].dependencies|
    ensures PlanOf(n, priority)[j].dependencies[d] in Ids(PlanOf(n, priority)[..j])
  {
    if j < 7 * n {
      StageAt(n, priority, j / 7, j % 7);
      StageDependency(n, priority, j / 7, j % 7, d);
    } else {
      AggregationAt(n, priority);
      AggregateDependency(n, priority, d);
    }
  }

  /** For every n: 7n + 1 tasks with distinct ids, and every dependency is planned earlier. */
  lemma PlanIsValid(n: nat, priority: int)
    ensures |PlanOf(n, priority)| == 7 * n + 1 && ValidPlan(PlanOf(n, priority))
  {
    var plan := PlanOf(n, priority);
    forall i, j | 0 <= i < j < |plan|
      ensures Ids(plan)[i] != Ids(plan)[j]
    {
      PlannedIdsDiffer(n, priority, i, j);
    }
    forall j, d | 0 <= j < |plan| && 0 <= d < |plan[j].dependencies|
      ensures plan[j].dependencies[d] in Ids(plan[..j])
    {
      DependencyIsEarlier(n, priority, j, d);
    }
  }

  // ---- The plan spelled out ----

  /** The seven stages by name. */
  const NAMES: seq<string> := [
    "extract_ips", "deduplicate", "classify", "blacklist_check", "geolocation", "pattern_detect", "generate_report"]

  /** The id of a stage's task for a chunk. */
  function StageId(k: nat, chunk: nat): string
    requires k < 7
  {
    "task_" + NAMES[k] + "_chunk_" + Decimal(chunk)
  }

  /** Which stage needs which: 0, 1, 2 in a row, then 3 and 4 side by side, 5 for both, and 6. */
  const NEEDED: seq<seq<nat>> := [[], [0], [1], [2], [2], [3, 4], [5]]

  lemma NeedsSpelled(k: nat, d: nat)
    requires k < 7 && d < |NEEDED[k]|
    ensures |PIPELINE_STAGES[k].dependsOn| == |NEEDED[k]| && NEEDED[k][d] < k
    ensures PIPELINE_STAGES[k].dependsOn[d] == PIPELINE_STAGES[NEEDED[k][d]].stage
  {
  }

  /** Extraction and the two look-ups are IO on an IO partition; everything else, the report included, is not. */
  lemma StageTypes(n: nat, priority: int, c: nat, k: nat)
    requires c < n && k < 7
    ensures var task := PlanOf(n, priority)[7 * c + k];
            && task.taskType == [IO, CPU, CPU, IO, IO, CPU, IO_CPU][k]
            && task.partition == ["io", "cpu", "cpu", "io", "io", "cpu", "cpu"][k]
            && task.priority == priority
  {
    StageAt(n, priority, c, k);
  }

  /** Every stage is named after its chunk and waits for the same chunk's stages. */
  lemma StageIdsAndNeeds(n: nat, priority: int, c: nat, k: nat)
    requires c < n && k < 7
    ensures var task := PlanOf(n, priority)[7 * c + k];
            && task.taskId == StageId(k, c + 1)
            && |task.dependencies| == |NEEDED[k]|
            && forall d :: 0 <= d < |NEEDED[k]| ==>
                 NEEDED[k][d] < 7 && task.dependencies[d] == StageId(NEEDED[k][d], c + 1)
  {
    StageAt(n, priority, c, k);
    assert PIPELINE_STAGES[k].stage == NAMES[k];
    forall d | 0 <= d < |NEEDED[k]|
      ensures NEEDED[k][d] < 7
      ensures PlanOf(n, priority)[7 * c + k].dependencies[d] == StageId(NEEDED[k][d], c + 1)
    {
      NeedsSpelled(k, d);
      assert PIPELINE_STAGES[NEEDED[k][d]].stage == NAMES[NEEDED[k][d]];
    }
  }

  /** And it is described by what it does and the chunk it does it to. */
  lemma StageDescriptions(n: nat, priority: int, c: nat, k: nat)
    requires c < n && k < 7
    ensures PlanOf(n, priority)[7 * c + k].description ==
            ["Extract IP addresses from log chunk", "Deduplicate extracted entries",
             "Classify IPs as internal/external", "Check against blacklist API",
             "Geolocation lookup for external IPs", "Detect suspicious access patterns",
             "Generate CSV + PDF report"][k] + " (chunk " + Decimal(c + 1) + ")"
  {
    StageAt(n, priority, c, k);
  }

  /** The last task is one of CPU and waits for all reports. */
  lemma PlanEnds(n: nat, priority: int)
    ensures var last := PlanOf(n, priority)[7 * n];
            && last.taskId == "task_aggregate_final" && last.taskType == CPU && last.partition == "cpu"
            && last.description == "Aggregate all chunk reports into final output" && last.priority == priority
            && |last.dependencies| == n
            && forall c :: 0 <= c < n ==> last.dependencies[c] == StageId(6, c + 1)
  {
    AggregationAt(n, priority);
  }
}
