/**
 backend/agents/critic.py: the gate from COMPLETED to VALIDATED. Scores are
 tenths of a point, execution times hundredths of a second.
 */
module Critics {
  import opened Collections
  import opened Models
  import opened TaskStores

  const MAX_SCORE := 100
  const PASS_SCORE := 50
  const TIME_LIMIT := 12000

  predicate HasOutput(payload: Option<Payload>) {
    payload.Some? && payload.value.Dictionary? && "output" in payload.value.keys
  }

  predicate TimeValid(executionTime: int) { 0 < executionTime < TIME_LIMIT }

  function EfficiencyBonus(executionTime: int): int {
    if executionTime < 200 then 20 else if executionTime < 500 then 15 else if executionTime < 1000 then 10 else 5
  }

  /** The random part of a score: 0.3 to 1.0 points. */
  predicate IsVariance(v: int) { 3 <= v <= 10 }

  function Quality(result: TaskResult, depsValid: bool, variance: int): int {
    Min(MAX_SCORE,
        (if result.result.Some? then 20 else 0)
        + (if HasOutput(result.result) then 10 else 0)
        + (if depsValid then 20 else 0)
        + (if TimeValid(result.executionTime) then 20 else 0)
        + EfficiencyBonus(result.executionTime)
        + variance)
  }

  /** The whole acceptance test, score threshold included. */
  predicate Accepts(s: Store, task: TaskSpec, result: TaskResult, variance: int) {
    && result.result.Some?
    && s.DependenciesMet(task)
    && TimeValid(result.executionTime)
    && Quality(result, s.DependenciesMet(task), variance) >= PASS_SCORE
  }

  /**
   The random part of the score never decides: a result is accepted exactly
   when there is one, its dependencies are settled and its time is in bounds.
   The cap never cuts a score either.
   */
  lemma ScoreNeverDecides(s: Store, task: TaskSpec, result: TaskResult, variance: int)
    requires IsVariance(variance)
    ensures Accepts(s, task, result, variance) <==>
            result.result.Some? && s.DependenciesMet(task) && 0 < result.executionTime < 12000
    ensures Accepts(s, task, result, variance) ==> Quality(result, true, variance) >= 68
    ensures 0 <= Quality(result, s.DependenciesMet(task), variance) <= 100
    ensures Quality(result, true, 10) == 100 <==>
            HasOutput(result.result) && 0 < result.executionTime < 200
  {
  }

  /** How many of the marks at 2, 5 and 10 seconds a time has reached. */
  function MarksReached(executionTime: int): nat {
    (if 200 <= executionTime then 1 else 0) + (if 500 <= executionTime then 1 else 0)
    + (if 1000 <= executionTime then 1 else 0)
  }

  /** The score of a result in bounds: full marks less half a point a mark, a point without output, and the variance. */
  lemma ScoreIsFullMarksLess(result: TaskResult, variance: int)
    requires IsVariance(variance) && result.result.Some? && 0 < result.executionTime < 12000
    ensures Quality(result, true, variance) ==
            100 - 5 * MarksReached(result.executionTime)
            - (if HasOutput(result.result) then 0 else 10) - (10 - variance)
  {
  }

  /** All else equal, a faster result never scores less, and it scores more exactly when it beats a mark. */
  lemma FasterScoresMore(fast: TaskResult, slow: TaskResult, depsValid: bool, variance: int)
    requires IsVariance(variance) && fast.result == slow.result
    requires 0 < fast.executionTime <= slow.executionTime < 12000
    ensures Quality(fast, depsValid, variance) >= Quality(slow, depsValid, variance)
    ensures Quality(fast, depsValid, variance) - Quality(slow, depsValid, variance) ==
            5 * (MarksReached(slow.executionTime) - MarksReached(fast.executionTime))
  {
  }

  /** Every score from 6.8 to 10 occurs: the variance takes all its values, and nothing is cut off. */
  lemma ScoresAreAttained(score: int) returns (result: TaskResult, variance: int)
    requires 68 <= score <= 100
    ensures IsVariance(variance) && result.result.Some? && Quality(result, true, variance) == score
  {
    var output := Dictionary({"output"});
    var slow, marks := (score < 73) || (78 <= score < 83), if score >= 93 then 0 else if score >= 88 then 1 else 2;
    var time := if slow then 2000 else if marks == 0 then 100 else if marks == 1 then 300 else 700;
    var payload := if score >= 78 then output else OtherValue;
    result := TaskResult("", "", false, time, Some(payload), None);
    variance := score - 90 + 5 * (if slow then 3 else marks) + if score >= 78 then 0 else 10;
  }

  function AfterValidation(s: Store, task: TaskSpec, result: TaskResult, variance: int): Store {
    if Accepts(s, task, result, variance) then
      s.UpdateTask(task.taskId, (t: Task) =>
        t.(status := VALIDATED, qualityScore := Some(Quality(result, s.DependenciesMet(task), variance))))
    else s
  }

  class Critic {
    const store: TaskStore

    constructor (store: TaskStore)
      ensures this.store == store
    {
      this.store := store;
    }

    method Validate(task: TaskSpec, result: TaskResult, variance: int) returns (valid: bool)
      modifies store
      ensures store.View() == AfterValidation(old(store.View()), task, result, variance)
      ensures valid <==> Accepts(old(store.View()), task, result, variance)
    {
      var hasResult := result.result.Some?;
      var hasOutput := HasOutput(result.result);
      var depsValid := CheckDependencies(task);
      var timeValid := 0 < result.executionTime < TIME_LIMIT;
      var score := CalculateQuality(hasResult, hasOutput, depsValid, timeValid, result.executionTime, variance);
      valid := hasResult && depsValid && timeValid && score >= PASS_SCORE;
      if valid {
        var _ := store.UpdateTask(task.taskId, (t: Task) => t.(status := VALIDATED, qualityScore := Some(score)));
      }
    }

    method CheckDependencies(task: TaskSpec) returns (ok: bool)
      ensures ok <==> store.View().DependenciesMet(task)
      ensures ok <==> forall d :: d in task.dependencies ==>
                        d in store.tasks && store.tasks[d].status in {VALIDATED, STORED}
    {
      for i := 0 to |task.dependencies|
        invariant forall k :: 0 <= k < i ==> store.View().Settled(task.dependencies[k])
      {
        var dep := store.GetTask(task.dependencies[i]);
        if dep.None? {
          return false;
        }
        if dep.value.status !in {VALIDATED, STORED} {
          return false;
        }
      }
      return true;
    }

    method CalculateQuality(
      hasResult: bool, hasOutput: bool, depsValid: bool, timeValid: bool, executionTime: int, variance: int)
      returns (score: int)
      ensures score == Min(MAX_SCORE,
                           (if hasResult then 20 else 0) + (if hasOutput then 10 else 0) + (if depsValid then 20 else 0)
                           + (if timeValid then 20 else 0) + EfficiencyBonus(executionTime) + variance)
    {
      score := 0;
      if hasResult {
        score := score + 20;
      }
      if hasOutput {
        score := score + 10;
      }
      if depsValid {
        score := score + 20;
      }
      if timeValid {
        score := score + 20;
      }
      if executionTime < 200 {
        score := score + 20;
      } else if executionTime < 500 {
        score := score + 15;
      } else if executionTime < 1000 {
        score := score + 10;
      } else {
        score := score + 5;
      }
      score := score + variance;
      score := Min(100, score);
    }
  }
}
