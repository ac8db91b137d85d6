/**
 The job's aggregate: one result per trial config, rebuilt from the settled tasks whether the run
 returns, a shutdown surfaced in a task, or the job itself was cancelled.
 */
module Jobs {
  import opened Wrappers

  datatype Config = Config(scenario: string, trial: string)

  datatype TrialResult = TrialResult(scenario: string, trial: string, exception: Option<string>, exitCode: Option<int>)

  /** How a trial's task settled. `ShutDown`: it raised the operator's shutdown. */
  datatype Task = Returned(result: TrialResult) | Raised(error: string) | ShutDown | TaskCancelled

  /** What gathering with exceptions as values would have yielded. */
  datatype Outcome = Value(result: TrialResult) | Exception(error: string, shutdown: bool)

  datatype Aggregate = Aggregate(results: seq<TrialResult>, total: nat, succeeded: nat, failed: int)

  /** How the run unwinds, if it does. */
  datatype Unwinding = Interrupted | OperationCancelled

  predicate Success(r: TrialResult) {
    r.exception.None? && (r.exitCode == None || r.exitCode == Some(0))
  }

  /** The trial itself returned a success. */
  predicate Won(t: Task) {
    t.Returned? && Success(t.result)
  }

  function CountWon(tasks: seq<Task>): nat {
    if tasks == [] then 0 else CountWon(tasks[..|tasks| - 1]) + (if Won(tasks[|tasks| - 1]) then 1 else 0)
  }

  lemma {:induction false} NoMoreWonThanRun(tasks: seq<Task>)
    ensures CountWon(tasks) <= |tasks|
    ensures CountWon(tasks) == |tasks| <==> forall i :: 0 <= i < |tasks| ==> Won(tasks[i])
  {
    if tasks != [] {
      NoMoreWonThanRun(tasks[..|tasks| - 1]);
      assert forall i :: 0 <= i < |tasks| - 1 ==> tasks[i] == tasks[..|tasks| - 1][i];
    }
  }

  /** The result recorded for a config says what became of its task. */
  predicate Records(t: Task, c: Config, r: TrialResult) {
    if t.Returned? then r == t.result
    else r.scenario == c.scenario && r.trial == c.trial && r.exception.Some? && r.exitCode.None?
  }

  method TaskOutcomes(tasks: seq<Task>) returns (outcomes: seq<Outcome>)
    ensures |outcomes| == |tasks|
    ensures forall i :: 0 <= i < |tasks| ==>
      (outcomes[i].Value? <==> tasks[i].Returned?) && (tasks[i].Returned? ==> outcomes[i].result == tasks[i].result)
    ensures forall i :: 0 <= i < |tasks| ==> (outcomes[i].Exception? && outcomes[i].shutdown <==> tasks[i].ShutDown?)
  {
    outcomes := [];
    for i := 0 to |tasks|
      invariant |outcomes| == i
      invariant forall k :: 0 <= k < i ==>
        (outcomes[k].Value? <==> tasks[k].Returned?) && (tasks[k].Returned? ==> outcomes[k].result == tasks[k].result)
      invariant forall k :: 0 <= k < i ==> (outcomes[k].Exception? && outcomes[k].shutdown <==> tasks[k].ShutDown?)
    {
      match tasks[i]
      case TaskCancelled => outcomes := outcomes + [Exception("CancelledError", false)];
      case ShutDown => outcomes := outcomes + [Exception("OperationCancelled", true)];
      case Raised(error) => outcomes := outcomes + [Exception(error, false)];
      case Returned(result) => outcomes := outcomes + [Value(result)];
    }
  }

  method CoerceOutcomesToResults(outcomes: seq<Outcome>, configs: seq<Config>) returns (results: seq<TrialResult>)
    requires |outcomes| == |configs|
    ensures |results| == |configs|
    ensures forall i :: 0 <= i < |configs| ==>
      if outcomes[i].Value? then results[i] == outcomes[i].result
      else results[i] == TrialResult(configs[i].scenario, configs[i].trial, Some(outcomes[i].error), None)
  {
    results := [];
    for i := 0 to |outcomes|
      invariant |results| == i
      invariant forall k :: 0 <= k < i ==>
        if outcomes[k].Value? then results[k] == outcomes[k].result
        else results[k] == TrialResult(configs[k].scenario, configs[k].trial, Some(outcomes[k].error), None)
    {
      match outcomes[i]
      case Value(result) => results := results + [result];
      case Exception(error, _) => results := results + [TrialResult(configs[i].scenario, configs[i].trial, Some(error), None)];
    }
  }

  /**
   Aggregate a batch whose tasks have all settled. The aggregate has one result per config in
   order, counts as succeeded exactly the trials that returned a success, and splits the total
   into successes and failures - and does so whether or not the run unwinds.
   */
  method Run(configs: seq<Config>, tasks: seq<Task>, interrupted: bool) returns (a: Aggregate, unwinding: Option<Unwinding>)
    requires |tasks| == |configs|
    ensures |a.results| == |configs| == a.total
    ensures forall i :: 0 <= i < |configs| ==> Records(tasks[i], configs[i], a.results[i])
    ensures a.succeeded == CountWon(tasks) && a.succeeded + a.failed == a.total && 0 <= a.failed
    ensures a.failed == 0 <==> forall i :: 0 <= i < |tasks| ==> Won(tasks[i])
    ensures interrupted ==> unwinding == Some(Interrupted)
    ensures !interrupted ==> (unwinding == Some(OperationCancelled) <==> exists i :: 0 <= i < |tasks| && tasks[i].ShutDown?)
    ensures !interrupted ==> unwinding.None? || unwinding == Some(OperationCancelled)
  {
    var outcomes := TaskOutcomes(tasks);
    unwinding := if interrupted then Some(Interrupted) else None;
    if !interrupted {
      for i := 0 to |outcomes|
        invariant unwinding.None? && forall k :: 0 <= k < i ==> !tasks[k].ShutDown?
      {
        if outcomes[i].Exception? && outcomes[i].shutdown {
          unwinding := Some(OperationCancelled);
          break;
        }
      }
    }
    // The finally block.
    var results := CoerceOutcomesToResults(outcomes, configs);
    var succeeded := 0;
    for i := 0 to |results|
      invariant succeeded == CountWon(tasks[..i])
    {
      assert tasks[..i + 1][..i] == tasks[..i];
      assert Success(results[i]) <==> Won(tasks[i]);
      if Success(results[i]) {
        succeeded := succeeded + 1;
      }
    }
    assert tasks[..|results|] == tasks;
    NoMoreWonThanRun(tasks);
    a := Aggregate(results, |configs|, succeeded, |configs| - succeeded);
  }
}
