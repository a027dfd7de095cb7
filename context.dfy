/**
 * The execution context of the agentic loop: the dict built by
 * `_build_full_execution_context` (llm_interpreter.py:404-415) and updated
 * in place by `_update_execution_context` (llm_interpreter.py:671-686).
 */
module Context {
  import opened Wrappers
  import opened Executor

  /** The values `current_state` takes. */
  datatype Status = Initialized | Progressing | ErrorRecovery

  /** The string stored under `current_state`. */
  function StatusLabel(status: Status): string
  {
    match status
    case Initialized => "initialized"
    case Progressing => "progressing"
    case ErrorRecovery => "error_recovery"
  }

  /** Distinct states have distinct labels, so the label determines the state. */
  lemma StatusLabelInjective(a: Status, b: Status)
    ensures StatusLabel(a) == StatusLabel(b) <==> a == b
  {
    if a != b {
      assert StatusLabel(a)[0] != StatusLabel(b)[0] || |StatusLabel(a)| != |StatusLabel(b)|;
    }
  }

  /** `all(r['success'] for r in results)`. */
  predicate AllSucceeded(results: seq<ToolResult>)
  {
    forall k :: 0 <= k < |results| ==> results[k].success
  }

  /** The state after a step: unchanged without results, else decided by that step's results alone. */
  function NextStatus(current: Status, results: seq<ToolResult>): Status
  {
    if |results| == 0 then current
    else if !AllSucceeded(results) then ErrorRecovery
    else Progressing
  }

  /**
   * The parts of the context the loop reads and writes. The history keeps
   * the responses (their timestamps are not modelled).
   */
  datatype ContextState = ContextState(
    goal: string,
    containerName: Option<string>,
    history: seq<string>,
    results: seq<ToolResult>,
    status: Status)

  /** `_build_full_execution_context`: empty history and results, state `initialized`. */
  function Initial(goal: string, containerName: Option<string>): ContextState
  {
    ContextState(goal, containerName, [], [], Initialized)
  }

  /** `_update_execution_context(context, response, results)` as a value. */
  function Updated(c: ContextState, response: string, results: seq<ToolResult>): ContextState
  {
    c.(history := c.history + [response], results := c.results + results, status := NextStatus(c.status, results))
  }

  /** The dict the loop passes around and updates in place. */
  class ExecutionContext {
    const goal: string
    const containerName: Option<string>
    var executionHistory: seq<string>
    var toolResults: seq<ToolResult>
    var currentState: Status

    function State(): ContextState
      reads this
    {
      ContextState(goal, containerName, executionHistory, toolResults, currentState)
    }

    constructor (goal: string, containerName: Option<string>)
      ensures State() == Initial(goal, containerName)
    {
      this.goal := goal;
      this.containerName := containerName;
      executionHistory := [];
      toolResults := [];
      currentState := Initialized;
    }

    /** `_update_execution_context`: append the response and the results, then move the state. */
    method Update(response: string, results: seq<ToolResult>)
      modifies this
      ensures State() == Updated(old(State()), response, results)
    {
      executionHistory := executionHistory + [response];
      toolResults := toolResults + results;
      if |results| > 0 {
        if !AllSucceeded(results) {
          currentState := ErrorRecovery;
        } else {
          currentState := Progressing;
        }
      }
    }
  }

  /** One step of the loop as the context sees it: the response and the results it produced. */
  datatype Step = Step(response: string, results: seq<ToolResult>)

  /** The context after a sequence of steps. */
  function Replay(c: ContextState, steps: seq<Step>): ContextState
  {
    if |steps| == 0 then c
    else
      var last := steps[|steps| - 1];
      Updated(Replay(c, steps[..|steps| - 1]), last.response, last.results)
  }

  function Responses(steps: seq<Step>): (r: seq<string>)
    ensures |r| == |steps|
  {
    if |steps| == 0 then [] else Responses(steps[..|steps| - 1]) + [steps[|steps| - 1].response]
  }

  function AllResults(steps: seq<Step>): seq<ToolResult>
  {
    if |steps| == 0 then [] else AllResults(steps[..|steps| - 1]) + steps[|steps| - 1].results
  }

  /** The index of the last step that produced at least one result. */
  function LastActive(steps: seq<Step>): (j: Option<nat>)
    ensures j.Some? ==> j.value < |steps| && |steps[j.value].results| > 0
  {
    if |steps| == 0 then None
    else if |steps[|steps| - 1].results| > 0 then Some(|steps| - 1)
    else LastActive(steps[..|steps| - 1])
  }

  /** `LastActive` is last: every later step produced nothing. */
  lemma {:induction false} LastActiveIsLast(steps: seq<Step>)
    ensures LastActive(steps).None? ==> forall k :: 0 <= k < |steps| ==> |steps[k].results| == 0
    ensures LastActive(steps).Some? ==> forall k :: LastActive(steps).value < k < |steps| ==> |steps[k].results| == 0
    decreases |steps|
  {
    if |steps| > 0 && |steps[|steps| - 1].results| == 0 {
      var front := steps[..|steps| - 1];
      LastActiveIsLast(front);
      assert forall k :: 0 <= k < |front| ==> front[k] == steps[k];
    }
  }

  /**
   * The context only grows: after any steps the history is the old history
   * followed by the responses, the results the old results followed by each
   * step's results, and goal and container are untouched.
   */
  lemma {:induction false} ReplayAppends(c: ContextState, steps: seq<Step>)
    ensures Replay(c, steps).history == c.history + Responses(steps)
    ensures Replay(c, steps).results == c.results + AllResults(steps)
    ensures Replay(c, steps).goal == c.goal && Replay(c, steps).containerName == c.containerName
    decreases |steps|
  {
    if |steps| > 0 {
      ReplayAppends(c, steps[..|steps| - 1]);
    }
  }

  /**
   * The state after any steps reflects the last step that produced results:
   * `error_recovery` if one of them failed, `progressing` if all succeeded;
   * with no results at all the state is the one the context started with.
   */
  lemma {:induction false} ReplayStatus(c: ContextState, steps: seq<Step>)
    ensures Replay(c, steps).status ==
      match LastActive(steps)
      case None => c.status
      case Some(j) => if AllSucceeded(steps[j].results) then Progressing else ErrorRecovery
    decreases |steps|
  {
    if |steps| > 0 {
      var front := steps[..|steps| - 1];
      ReplayStatus(c, front);
      if |steps[|steps| - 1].results| == 0 {
        assert LastActive(steps) == LastActive(front);
        if LastActive(front).Some? {
          assert steps[LastActive(front).value] == front[LastActive(front).value];
        }
      }
    }
  }

  /** A single failed result anywhere in a step puts the context into error recovery. */
  lemma OneFailureIsEnough(current: Status, results: seq<ToolResult>, k: nat)
    requires k < |results| && !results[k].success
    ensures NextStatus(current, results) == ErrorRecovery
  {
  }

  /** The context leaves `initialized` exactly when a step produces a result. */
  lemma {:induction false} InitializedUntilFirstResult(goal: string, containerName: Option<string>, steps: seq<Step>)
    ensures Replay(Initial(goal, containerName), steps).status == Initialized <==> |AllResults(steps)| == 0
    decreases |steps|
  {
    if |steps| > 0 {
      InitializedUntilFirstResult(goal, containerName, steps[..|steps| - 1]);
    }
  }
}
