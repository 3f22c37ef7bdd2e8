/** The schema migration runner: a slice of the ordered step files is run
    one by one; a missing file is skipped, the first failing step stops the
    run. The file system and the database are one oracle saying, per step
    file, whether it is missing, ran, or failed. */
module Migrations {
  import opened Wrappers
  import opened Seqs

  const MigrationSteps: seq<string> := [
    "step_01_create_database.sql",
    "step_02_lookup_tables.sql",
    "step_03_main_observations.sql",
    "step_04_spatial_indexes.sql"
  ]

  datatype StepOutcome = Missing | Ok | Fail

  /** One iteration of the step loop: its number, its file and what
      happened. */
  datatype Visit = Visit(number: int, file: string, outcome: StepOutcome)

  /** `MIGRATION_STEPS[start_step-1:end_step]`, the end defaulting to the
      number of steps. */
  function StepsToRun(start: int, end: Option<int>): seq<string> {
    PySlice(MigrationSteps, start - 1, end.GetOr(|MigrationSteps|))
  }

  /** The defaults run every step. */
  lemma DefaultRunsAll()
    ensures StepsToRun(1, None) == MigrationSteps
  {
  }

  /** An in-range window runs exactly those steps. */
  lemma WindowSteps(start: int, end: int)
    requires 1 <= start <= end <= |MigrationSteps|
    ensures StepsToRun(start, Some(end)) == MigrationSteps[start - 1..end]
    ensures |StepsToRun(start, Some(end))| == end - start + 1
  {
  }

  /** Python slice semantics: a start of 0 gives the bound -1, which counts
      from the end, so only the last step runs, numbered 0. */
  lemma StartZeroRunsLast()
    ensures StepsToRun(0, None) == [MigrationSteps[3]]
  {
  }

  /** A start past the end runs nothing, and the run then reports success. */
  lemma StartPastEndRunsNothing(start: int, end: Option<int>)
    requires start > |MigrationSteps|
    ensures StepsToRun(start, end) == []
  {
  }

  /** Every selected step existed and ran. */
  predicate AllSucceeded(steps: seq<string>, outcome: string -> StepOutcome) {
    forall k :: 0 <= k < |steps| ==> outcome(steps[k]) == Ok
  }

  /** The step loop over the selected steps, numbered from `first`: each
      step is visited in order up to and including the first failing one;
      the result is true iff every step existed and succeeded. */
  method RunSteps(steps: seq<string>, first: int, outcome: string -> StepOutcome)
    returns (ok: bool, visited: seq<Visit>)
    ensures |visited| <= |steps|
    ensures forall k :: 0 <= k < |visited| ==> visited[k] == Visit(first + k, steps[k], outcome(steps[k]))
    ensures forall k :: 0 <= k < |visited| - 1 ==> visited[k].outcome != Fail
    ensures |visited| < |steps| ==> |visited| > 0 && visited[|visited| - 1].outcome == Fail
    ensures ok <==> AllSucceeded(steps, outcome)
  {
    var successCount := 0;
    visited := [];
    var i := 0;
    while i < |steps|
      invariant 0 <= successCount <= i <= |steps|
      invariant |visited| == i
      invariant forall k :: 0 <= k < i ==> visited[k] == Visit(first + k, steps[k], outcome(steps[k]))
      invariant forall k :: 0 <= k < i ==> outcome(steps[k]) != Fail
      invariant successCount == i <==> AllSucceeded(steps[..i], outcome)
    {
      var o := outcome(steps[i]);
      visited := visited + [Visit(first + i, steps[i], o)];
      if o == Fail {
        assert !AllSucceeded(steps, outcome) by {
          assert outcome(steps[i]) != Ok;
        }
        return false, visited;
      }
      assert steps[..i + 1] == steps[..i] + [steps[i]];
      if o == Ok {
        successCount := successCount + 1;
      } else {
        assert !AllSucceeded(steps[..i + 1], outcome) by {
          assert steps[..i + 1][i] == steps[i];
        }
      }
      i := i + 1;
    }
    assert steps[..i] == steps;
    ok := successCount == |steps|;
  }

  /** `run_migrations`: without a connection nothing is visited and the
      result is false; otherwise the selected steps run, numbered from
      `start`. */
  method RunMigrations(start: int, end: Option<int>, connected: bool, outcome: string -> StepOutcome)
    returns (ok: bool, visited: seq<Visit>)
    ensures !connected ==> !ok && visited == []
    ensures connected ==>
              var steps := StepsToRun(start, end);
              && |visited| <= |steps|
              && (forall k :: 0 <= k < |visited| ==> visited[k] == Visit(start + k, steps[k], outcome(steps[k])))
              && (forall k :: 0 <= k < |visited| - 1 ==> visited[k].outcome != Fail)
              && (|visited| < |steps| ==> |visited| > 0 && visited[|visited| - 1].outcome == Fail)
              && (ok <==> AllSucceeded(steps, outcome))
  {
    if !connected {
      return false, [];
    }
    ok, visited := RunSteps(StepsToRun(start, end), start, outcome);
  }

  /** A missing step is skipped, not fatal: the later steps are still
      visited, but the run is reported as failed. */
  lemma MissingIsNotSuccess(steps: seq<string>, outcome: string -> StepOutcome, k: nat)
    requires k < |steps| && outcome(steps[k]) == Missing
    ensures !AllSucceeded(steps, outcome)
  {
  }

  /** `main`: the process exits 0 iff the run succeeded. */
  method MigrateMain(start: int, end: Option<int>, connected: bool, outcome: string -> StepOutcome)
    returns (exitCode: int)
    ensures exitCode == 0 || exitCode == 1
    ensures exitCode == 0 <==> connected && AllSucceeded(StepsToRun(start, end), outcome)
  {
    var ok, _ := RunMigrations(start, end, connected, outcome);
    exitCode := if ok then 0 else 1;
  }
}
