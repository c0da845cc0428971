/**
 * The orchestrator (scripts/etl_pipeline.py). `main` runs extract.py,
 * transform.py and load.py in that order as subprocesses and stops at the
 * first one that is missing or exits with a nonzero code, writing every
 * step to its own log.
 *
 * Whether a script exists and how its process ends are inputs: the
 * function `outcome` gives the result of running each script.
 */
module Pipeline {
  import opened Seqs

  /** What `run_script` finds: no script at the path, or a process that ended with a return code. */
  datatype StepResult = ScriptMissing | Exited(code: int, stderr: string)

  const Steps: seq<string> := ["extract.py", "transform.py", "load.py"]

  /** `run_script`'s verdict: the script exists and its process returned 0. */
  predicate Succeeded(r: StepResult) {
    r.Exited? && r.code == 0
  }

  const Started := "===== ETL PIPELINE STARTED ====="
  const Completed := "===== ETL PIPELINE COMPLETED " + "SUCCESSFULLY ====="
  const Failed := "PIPELINE FAILED. STOPPING."

  function ScriptPath(scriptDir: string, name: string): string {
    scriptDir + "/" + name
  }

  function RunningMsg(name: string): string {
    "---- Running " + name + " ----"
  }

  function MissingMsg(path: string): string {
    "ERROR: Script not found → " + path
  }

  function ErrorMsg(name: string, stderr: string): string {
    "ERROR in " + name + ": " + stderr
  }

  function SucceededMsg(name: string): string {
    name + " completed successfully."
  }

  /** The lines `run_script(name)` logs. */
  function StepLog(scriptDir: string, name: string, r: StepResult): seq<string> {
    [RunningMsg(name)]
      + match r
        case ScriptMissing => [MissingMsg(ScriptPath(scriptDir, name))]
        case Exited(code, stderr) => if code != 0 then [ErrorMsg(name, stderr)] else [SucceededMsg(name)]
  }

  /** The lines the `for` loop and the final line log for `steps`. */
  function RunLog(scriptDir: string, steps: seq<string>, outcome: string -> StepResult): seq<string> {
    if steps == [] then [Completed]
    else
      StepLog(scriptDir, steps[0], outcome(steps[0]))
        + if Succeeded(outcome(steps[0])) then RunLog(scriptDir, steps[1..], outcome) else [Failed]
  }

  /** Everything `main` logs. */
  function PipelineLog(scriptDir: string, outcome: string -> StepResult): seq<string> {
    [Started] + RunLog(scriptDir, Steps, outcome)
  }

  /** The scripts `main` starts as processes: every attempted script that exists. */
  function Launched(steps: seq<string>, outcome: string -> StepResult): seq<string> {
    if steps == [] then []
    else
      (if outcome(steps[0]).ScriptMissing? then [] else [steps[0]])
        + if Succeeded(outcome(steps[0])) then Launched(steps[1..], outcome) else []
  }

  /** The logs of steps that all succeeded, one after the other. */
  function SuccessLogs(scriptDir: string, steps: seq<string>): seq<string> {
    if steps == [] then [] else [RunningMsg(steps[0]), SucceededMsg(steps[0])] + SuccessLogs(scriptDir, steps[1..])
  }

  /** The index of the first step that fails; `|steps|` if none does. */
  function FirstFailure(steps: seq<string>, outcome: string -> StepResult): (k: nat)
    ensures k <= |steps|
    ensures forall j :: 0 <= j < k ==> Succeeded(outcome(steps[j]))
    ensures k < |steps| ==> !Succeeded(outcome(steps[k]))
  {
    if steps == [] then 0
    else if !Succeeded(outcome(steps[0])) then 0
    else 1 + FirstFailure(steps[1..], outcome)
  }

  class Orchestrator {
    var log: seq<string>
    /** The scripts started with `subprocess.run`, in order. */
    var launched: seq<string>
    const scriptDir: string

    constructor (scriptDir: string)
      ensures this.scriptDir == scriptDir && log == [] && launched == []
    {
      this.scriptDir := scriptDir;
      log := [];
      launched := [];
    }

    /** `log(msg)`: one line appended to the pipeline log. */
    method Log(msg: string)
      modifies this
      ensures log == old(log) + [msg] && launched == old(launched)
    {
      log := log + [msg];
    }

    /** `run_script(name)`: a missing script is not started; a started one succeeds iff it returns 0. */
    method RunScript(name: string, r: StepResult) returns (success: bool)
      modifies this
      ensures success == Succeeded(r)
      ensures log == old(log) + StepLog(scriptDir, name, r)
      ensures launched == old(launched) + if r.ScriptMissing? then [] else [name]
    {
      Log(RunningMsg(name));
      var path := ScriptPath(scriptDir, name);
      if r.ScriptMissing? {
        Log(MissingMsg(path));
        return false;
      }
      launched := launched + [name];
      if r.code != 0 {
        Log(ErrorMsg(name, r.stderr));
        return false;
      }
      Log(SucceededMsg(name));
      success := true;
    }

    /** The `for step in steps` loop of `main`: each step in turn until one fails. */
    method RunSteps(steps: seq<string>, outcome: string -> StepResult)
      modifies this
      ensures log == old(log) + RunLog(scriptDir, steps, outcome)
      ensures launched == old(launched) + Launched(steps, outcome)
    {
      var i := 0;
      assert steps[i..] == steps;
      while i < |steps|
        invariant 0 <= i <= |steps|
        invariant old(log) + RunLog(scriptDir, steps, outcome) == log + RunLog(scriptDir, steps[i..], outcome)
        invariant old(launched) + Launched(steps, outcome) == launched + Launched(steps[i..], outcome)
      {
        var step := steps[i];
        ghost var lines := StepLog(scriptDir, step, outcome(step));
        ghost var started := if outcome(step).ScriptMissing? then [] else [step];
        ghost var log0, launched0 := log, launched;
        assert steps[i..][0] == step && steps[i..][1..] == steps[i + 1..];
        var success := RunScript(step, outcome(step));
        if !success {
          Log(Failed);
          assert RunLog(scriptDir, steps[i..], outcome) == lines + [Failed];
          Associate(log0, lines, [Failed]);
          assert Launched(steps[i..], outcome) == started + [];
          return;
        }
        ghost var restLog := RunLog(scriptDir, steps[i + 1..], outcome);
        ghost var restLaunched := Launched(steps[i + 1..], outcome);
        assert RunLog(scriptDir, steps[i..], outcome) == lines + restLog;
        Associate(log0, lines, restLog);
        assert Launched(steps[i..], outcome) == [step] + restLaunched;
        Associate(launched0, [step], restLaunched);
        i := i + 1;
      }
      assert steps[i..] == [];
      Log(Completed);
    }

    /** `main()`: the three steps in order, stopping at the first failure; returns normally either way. */
    method RunPipeline(outcome: string -> StepResult)
      modifies this
      ensures log == old(log) + PipelineLog(scriptDir, outcome)
      ensures launched == old(launched) + Launched(Steps, outcome)
    {
      Log(Started);
      ghost var log0 := old(log);
      RunSteps(Steps, outcome);
      Associate(log0, [Started], RunLog(scriptDir, Steps, outcome));
    }
  }

  // ---------- lemmas the loop proof uses ----------

  lemma {:induction false} SuccessLogsSnoc(scriptDir: string, steps: seq<string>, i: nat)
    requires i < |steps|
    ensures SuccessLogs(scriptDir, steps[..i + 1])
      == SuccessLogs(scriptDir, steps[..i]) + [RunningMsg(steps[i]), SucceededMsg(steps[i])]
  {
    if i > 0 {
      assert steps[..i + 1][1..] == steps[1..][..i];
      assert steps[..i][1..] == steps[1..][..i - 1];
      SuccessLogsSnoc(scriptDir, steps[1..], i - 1);
    }
  }

  /** Once the first `i` steps have succeeded, the rest of the log is the run of the remaining steps. */
  lemma {:induction false} RunLogSplit(scriptDir: string, steps: seq<string>, outcome: string -> StepResult, i: nat)
    requires i <= |steps| && forall j :: 0 <= j < i ==> Succeeded(outcome(steps[j]))
    ensures RunLog(scriptDir, steps, outcome) == SuccessLogs(scriptDir, steps[..i]) + RunLog(scriptDir, steps[i..], outcome)
  {
    if i > 0 {
      assert steps[..i][1..] == steps[1..][..i - 1];
      assert steps[i..] == steps[1..][i - 1..];
      RunLogSplit(scriptDir, steps[1..], outcome, i - 1);
    }
  }

  lemma {:induction false} LaunchedSplit(steps: seq<string>, outcome: string -> StepResult, i: nat)
    requires i <= |steps| && forall j :: 0 <= j < i ==> Succeeded(outcome(steps[j]))
    ensures Launched(steps, outcome) == steps[..i] + Launched(steps[i..], outcome)
  {
    if i > 0 {
      var rest := steps[1..];
      assert steps[i..] == rest[i - 1..];
      forall j | 0 <= j < i - 1 ensures Succeeded(outcome(rest[j])) {
        assert rest[j] == steps[j + 1];
      }
      LaunchedSplit(rest, outcome, i - 1);
      LaunchedCons(steps, outcome);
      var tail := Launched(steps[i..], outcome);
      calc {
        Launched(steps, outcome);
        [steps[0]] + Launched(rest, outcome);
        [steps[0]] + (rest[..i - 1] + tail);
        { Associate([steps[0]], rest[..i - 1], tail); }
        [steps[0]] + rest[..i - 1] + tail;
        { assert steps[..i] == [steps[0]] + rest[..i - 1]; }
        steps[..i] + tail;
      }
    }
  }

  lemma LaunchedCons(steps: seq<string>, outcome: string -> StepResult)
    requires steps != [] && Succeeded(outcome(steps[0]))
    ensures Launched(steps, outcome) == [steps[0]] + Launched(steps[1..], outcome)
  {
  }

  // ---------- what a run guarantees ----------

  /** `run_script` logs the running line first and then exactly one verdict line. */
  lemma StepLogShape(scriptDir: string, name: string, r: StepResult)
    requires name in Steps
    ensures var lines := StepLog(scriptDir, name, r);
      |lines| == 2 && lines[0] == RunningMsg(name)
      && (lines[1] == SucceededMsg(name) <==> Succeeded(r))
  {
    var lines := StepLog(scriptDir, name, r);
    assert SucceededMsg(name)[0] == name[0] != 'E';
    if r.ScriptMissing? {
      assert lines[1][0] == 'E';
    } else if r.code != 0 {
      assert lines[1][0] == 'E';
    }
  }

  /**
   * The exact log: the start line, the two lines of every step before the
   * first failure, then either that step's two lines and the failure line,
   * or the completion line.
   */
  lemma PipelineLogShape(scriptDir: string, outcome: string -> StepResult)
    ensures var k := FirstFailure(Steps, outcome);
      PipelineLog(scriptDir, outcome) == [Started] + SuccessLogs(scriptDir, Steps[..k])
        + if k < |Steps| then StepLog(scriptDir, Steps[k], outcome(Steps[k])) + [Failed] else [Completed]
  {
    var k := FirstFailure(Steps, outcome);
    RunLogSplit(scriptDir, Steps, outcome, k);
  }

  /** Only the steps up to the first failure are started, in order. */
  lemma PipelineFailFast(outcome: string -> StepResult)
    ensures var k := FirstFailure(Steps, outcome);
      Launched(Steps, outcome) == Steps[..k] + if k < |Steps| && outcome(Steps[k]).Exited? then [Steps[k]] else []
  {
    var k := FirstFailure(Steps, outcome);
    LaunchedSplit(Steps, outcome, k);
  }

  lemma {:induction false} SuccessLogsLines(scriptDir: string, steps: seq<string>)
    ensures forall m :: m in SuccessLogs(scriptDir, steps) ==>
      exists j :: 0 <= j < |steps| && (m == RunningMsg(steps[j]) || m == SucceededMsg(steps[j]))
  {
    if steps != [] {
      SuccessLogsLines(scriptDir, steps[1..]);
      forall m | m in SuccessLogs(scriptDir, steps)
        ensures exists j :: 0 <= j < |steps| && (m == RunningMsg(steps[j]) || m == SucceededMsg(steps[j]))
      {
        if m in SuccessLogs(scriptDir, steps[1..]) {
          var j :| 0 <= j < |steps[1..]| && (m == RunningMsg(steps[1..][j]) || m == SucceededMsg(steps[1..][j]));
          assert steps[1..][j] == steps[j + 1];
        }
      }
    }
  }

  /** No line other than the last can be the completion line. */
  lemma NotCompletedLines(scriptDir: string, outcome: string -> StepResult, k: nat)
    requires k <= |Steps|
    ensures Completed !in [Started] + SuccessLogs(scriptDir, Steps[..k])
    ensures k < |Steps| ==> Completed !in StepLog(scriptDir, Steps[k], outcome(Steps[k])) + [Failed]
  {
    assert Completed[0] == '=' && |Completed| != |Started|;
    SuccessLogsLines(scriptDir, Steps[..k]);
    forall j | 0 <= j < |Steps| ensures RunningMsg(Steps[j])[0] == '-' && SucceededMsg(Steps[j])[0] != '=' {
      assert Steps[j][0] != '=';
    }
    if k < |Steps| {
      var r := outcome(Steps[k]);
      if r.ScriptMissing? {
        assert MissingMsg(ScriptPath(scriptDir, Steps[k]))[0] == 'E';
      } else if r.code != 0 {
        assert ErrorMsg(Steps[k], r.stderr)[0] == 'E';
      }
    }
  }

  /** The completion line is logged iff all three steps succeed; otherwise the last line is the failure line. */
  lemma PipelineCompletedIffAllSucceed(scriptDir: string, outcome: string -> StepResult)
    ensures Completed in PipelineLog(scriptDir, outcome) <==> forall j :: 0 <= j < |Steps| ==> Succeeded(outcome(Steps[j]))
    ensures var log := PipelineLog(scriptDir, outcome);
      (exists j :: 0 <= j < |Steps| && !Succeeded(outcome(Steps[j]))) ==> log[|log| - 1] == Failed
  {
    var k := FirstFailure(Steps, outcome);
    PipelineLogShape(scriptDir, outcome);
    NotCompletedLines(scriptDir, outcome, k);
  }

  /** After a failing step, no later step is started or even announced. */
  lemma PipelineStopsAfterFailure(scriptDir: string, outcome: string -> StepResult, j: nat)
    requires FirstFailure(Steps, outcome) < j < |Steps|
    ensures Steps[j] !in Launched(Steps, outcome)
    ensures RunningMsg(Steps[j]) !in PipelineLog(scriptDir, outcome)
  {
    var k := FirstFailure(Steps, outcome);
    PipelineFailFast(outcome);
    PipelineLogShape(scriptDir, outcome);
    SuccessLogsLines(scriptDir, Steps[..k]);
    var run := RunningMsg(Steps[j]);
    assert run[0] == '-';
    forall i | 0 <= i < |Steps| && i != j ensures run != RunningMsg(Steps[i]) && run != SucceededMsg(Steps[i]) {
      assert |Steps[i]| != |Steps[j]|;
      assert Steps[i][0] != '-';
    }
    var r := outcome(Steps[k]);
    if r.ScriptMissing? {
      assert MissingMsg(ScriptPath(scriptDir, Steps[k]))[0] == 'E';
    } else {
      assert ErrorMsg(Steps[k], r.stderr)[0] == 'E';
    }
  }
}
