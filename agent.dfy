/**
 * The agentic loop of `_delegate_to_system_agent`
 * (llm_interpreter.py:336-383): at most ten iterations of prompt, model
 * reply, logging, tool extraction and execution, context update and
 * completion check; the state files are rewritten after every iteration
 * that does not complete.
 *
 * The model is an oracle `llm` from the parts of the prompt that vary to the
 * reply; the process runner is the oracle `run` of the executor. What the
 * loop writes to `history.md` and to the state files is returned as values.
 */
module Agent {
  import opened Wrappers
  import opened Text
  import opened Executor
  import opened Parser
  import opened Extraction
  import opened Context
  import opened Completion
  import opened Formatting

  const MaxIterations: nat := 10

  /** The parts of the iteration prompt that change from one iteration to the next. */
  datatype PromptView = PromptView(
    iteration: nat,
    goal: string,
    container: string,
    currentState: string,
    history: string,
    toolResults: string)

  /** `execution_context['container_name'] or "None (host system)"`. */
  function ContainerLabel(containerName: Option<string>): string
  {
    if InContainerMode(containerName) then containerName.value else "None (host system)"
  }

  /** What `_build_iteration_prompt` puts in front of the model at `iteration`. */
  function PromptFor(iteration: nat, c: ContextState): PromptView
  {
    PromptView(iteration, c.goal, ContainerLabel(c.containerName), StatusLabel(c.status),
               ExecutionHistoryText(c.history), ToolResultsText(c.results))
  }

  /** A `## {step}` section appended to `history.md` (its timestamp is not modelled). */
  datatype LogEntry = LogEntry(step: string, content: string)

  function StepTitle(iteration: nat): string
  {
    "SystemAgent Iteration " + NatToString(iteration)
  }

  /** The `variables.json` written by `_update_state_with_context`. */
  datatype StateSnapshot = StateSnapshot(goal: string, currentState: string, iterations: nat, toolCalls: nat)

  function Snapshot(c: ContextState): StateSnapshot
  {
    StateSnapshot(c.goal, StatusLabel(c.status), |c.history|, |c.results|)
  }

  /** Where the loop stopped and what it left behind. */
  datatype RunOutcome = RunOutcome(
    iterations: nat,
    completed: bool,
    context: ContextState,
    log: seq<LogEntry>,
    snapshots: seq<StateSnapshot>)

  /** The loop from after iteration `iteration`, with context `c`, log `log` and the snapshots so far. */
  function RunFrom(llm: PromptView -> string, run: ProcessRequest -> ProcessOutcome,
                   iteration: nat, c: ContextState, log: seq<LogEntry>, snapshots: seq<StateSnapshot>): RunOutcome
    decreases MaxIterations - iteration
  {
    if iteration >= MaxIterations then RunOutcome(iteration, false, c, log, snapshots)
    else
      var it := iteration + 1;
      var response := llm(PromptFor(it, c));
      var results := Extracted(response, c.containerName, run);
      var next := Updated(c, response, results);
      var nextLog := log + [LogEntry(StepTitle(it), response)];
      if IsExecutionComplete(response, results) then RunOutcome(it, true, next, nextLog, snapshots)
      else RunFrom(llm, run, it, next, nextLog, snapshots + [Snapshot(next)])
  }

  /** The whole loop for `goal`, starting from the initial context. */
  function Run(goal: string, containerName: Option<string>, llm: PromptView -> string,
               run: ProcessRequest -> ProcessOutcome): RunOutcome
  {
    RunFrom(llm, run, 0, Initial(goal, containerName), [], [])
  }

  /** The run ended without the model ever signalling completion. */
  predicate Exhausted(outcome: RunOutcome)
  {
    !outcome.completed
  }

  /**
   * `_delegate_to_system_agent`: the bounded loop over the context object.
   * `exhausted` is whether the iteration budget ran out.
   */
  method DelegateToSystemAgent(goal: string, containerName: Option<string>, llm: PromptView -> string,
                               run: ProcessRequest -> ProcessOutcome)
    returns (outcome: RunOutcome, exhausted: bool)
    ensures outcome == Run(goal, containerName, llm, run)
    ensures exhausted == Exhausted(outcome)
  {
    var context := new ExecutionContext(goal, containerName);
    var log: seq<LogEntry> := [];
    var snapshots: seq<StateSnapshot> := [];
    var iteration := 0;
    var completed := false;
    while iteration < MaxIterations
      invariant iteration <= MaxIterations
      invariant !completed
      invariant RunFrom(llm, run, iteration, context.State(), log, snapshots) == Run(goal, containerName, llm, run)
      invariant context.containerName == containerName
      decreases MaxIterations - iteration
    {
      ghost var before := context.State();
      ghost var logBefore := log;
      ghost var snapshotsBefore := snapshots;
      iteration := iteration + 1;
      var historyText := FormatExecutionHistory(context.executionHistory);
      var resultsText := FormatToolResults(context.toolResults);
      var prompt := PromptView(iteration, context.goal, ContainerLabel(context.containerName),
                               StatusLabel(context.currentState), historyText, resultsText);
      assert prompt == PromptFor(iteration, before);
      var response := llm(prompt);
      log := log + [LogEntry(StepTitle(iteration), response)];
      var toolResults := ExtractAndExecute(response, containerName, run);
      context.Update(response, toolResults);
      if IsExecutionComplete(response, toolResults) {
        assert RunFrom(llm, run, iteration - 1, before, logBefore, snapshotsBefore) ==
          RunOutcome(iteration, true, context.State(), log, snapshots);
        completed := true;
        break;
      }
      snapshots := snapshots + [Snapshot(context.State())];
    }
    outcome := RunOutcome(iteration, completed, context.State(), log, snapshots);
    exhausted := !completed;
  }

  /** The per-step view of a history of responses: each response with the results it produced. */
  function StepsOf(responses: seq<string>, containerName: Option<string>, run: ProcessRequest -> ProcessOutcome): (steps: seq<Step>)
    ensures |steps| == |responses|
  {
    if |responses| == 0 then []
    else
      var last := responses[|responses| - 1];
      StepsOf(responses[..|responses| - 1], containerName, run) + [Step(last, Extracted(last, containerName, run))]
  }

  /** The context the first `n` responses of `history` produce from the initial context. */
  function ReplayPrefix(goal: string, containerName: Option<string>, run: ProcessRequest -> ProcessOutcome,
                        history: seq<string>, n: nat): ContextState
    requires n <= |history|
  {
    Replay(Initial(goal, containerName), StepsOf(history[..n], containerName, run))
  }

  /** One log section per response, headed with its iteration number. */
  predicate LogMatches(log: seq<LogEntry>, history: seq<string>)
  {
    |log| == |history| && forall k :: 0 <= k < |log| ==> log[k] == LogEntry(StepTitle(k + 1), history[k])
  }

  /** The `k`-th snapshot is taken from the context after `k + 1` iterations. */
  predicate SnapshotsMatch(goal: string, containerName: Option<string>, run: ProcessRequest -> ProcessOutcome,
                           snapshots: seq<StateSnapshot>, history: seq<string>)
  {
    |snapshots| <= |history| &&
    forall k :: 0 <= k < |snapshots| ==> snapshots[k] == Snapshot(ReplayPrefix(goal, containerName, run, history, k + 1))
  }

  /** None of the first `n` responses completes the run. */
  predicate NoneComplete(containerName: Option<string>, run: ProcessRequest -> ProcessOutcome, history: seq<string>, n: nat)
  {
    n <= |history| &&
    forall k :: 0 <= k < n ==> !IsExecutionComplete(history[k], Extracted(history[k], containerName, run))
  }

  /**
   * Each response is the model's answer to the prompt of its iteration: the
   * iteration number and the context left by the responses before it.
   */
  predicate Answers(goal: string, containerName: Option<string>, llm: PromptView -> string,
                    run: ProcessRequest -> ProcessOutcome, history: seq<string>)
  {
    forall k :: 0 <= k < |history| ==>
      history[k] == llm(PromptFor(k + 1, ReplayPrefix(goal, containerName, run, history, k)))
  }

  /** What holds of the loop's state after every iteration that did not complete. */
  predicate Consistent(goal: string, containerName: Option<string>, llm: PromptView -> string,
                       run: ProcessRequest -> ProcessOutcome,
                       iteration: nat, c: ContextState, log: seq<LogEntry>, snapshots: seq<StateSnapshot>)
  {
    && iteration <= MaxIterations && |c.history| == iteration && |snapshots| == iteration
    && c.goal == goal && c.containerName == containerName
    && c == ReplayPrefix(goal, containerName, run, c.history, iteration)
    && LogMatches(log, c.history)
    && SnapshotsMatch(goal, containerName, run, snapshots, c.history)
    && NoneComplete(containerName, run, c.history, iteration)
    && Answers(goal, containerName, llm, run, c.history)
  }

  /** What holds of the loop's state once it has stopped. */
  predicate Settled(goal: string, containerName: Option<string>, llm: PromptView -> string,
                    run: ProcessRequest -> ProcessOutcome, o: RunOutcome)
  {
    && 1 <= o.iterations <= MaxIterations && |o.context.history| == o.iterations
    && (!o.completed ==> o.iterations == MaxIterations)
    && |o.snapshots| == (if o.completed then o.iterations - 1 else o.iterations)
    && o.context == ReplayPrefix(goal, containerName, run, o.context.history, o.iterations)
    && LogMatches(o.log, o.context.history)
    && SnapshotsMatch(goal, containerName, run, o.snapshots, o.context.history)
    && NoneComplete(containerName, run, o.context.history, |o.snapshots|)
    && (o.completed ==>
          IsExecutionComplete(o.context.history[o.iterations - 1],
                              Extracted(o.context.history[o.iterations - 1], containerName, run)))
    && Answers(goal, containerName, llm, run, o.context.history)
  }

  /** The response to the prompt built from the current context extends the record of answers. */
  lemma AnswersStep(goal: string, containerName: Option<string>, llm: PromptView -> string,
                    run: ProcessRequest -> ProcessOutcome, history: seq<string>, response: string)
    requires Answers(goal, containerName, llm, run, history)
    requires response == llm(PromptFor(|history| + 1, ReplayPrefix(goal, containerName, run, history, |history|)))
    ensures Answers(goal, containerName, llm, run, history + [response])
  {
    var next := history + [response];
    forall k | 0 <= k < |next|
      ensures next[k] == llm(PromptFor(k + 1, ReplayPrefix(goal, containerName, run, next, k)))
    {
      ReplayPrefixExtends(goal, containerName, run, history, response, k);
      if k < |history| {
        assert next[k] == history[k];
        assert history[k] == llm(PromptFor(k + 1, ReplayPrefix(goal, containerName, run, history, k)));
      } else {
        assert next[k] == response;
      }
    }
  }

  /** The next context is the replay of one more step. */
  lemma NextStep(goal: string, containerName: Option<string>, run: ProcessRequest -> ProcessOutcome,
                 c: ContextState, response: string)
    requires c.containerName == containerName
    requires c == ReplayPrefix(goal, containerName, run, c.history, |c.history|)
    ensures var next := Updated(c, response, Extracted(response, containerName, run));
      next == ReplayPrefix(goal, containerName, run, next.history, |next.history|)
  {
    var next := Updated(c, response, Extracted(response, containerName, run));
    assert next.history[..|next.history|][..|c.history|] == c.history[..|c.history|];
    var steps := StepsOf(next.history[..|next.history|], containerName, run);
    assert steps[..|steps| - 1] == StepsOf(c.history[..|c.history|], containerName, run);
  }

  lemma LogStep(log: seq<LogEntry>, history: seq<string>, response: string)
    requires LogMatches(log, history)
    ensures LogMatches(log + [LogEntry(StepTitle(|history| + 1), response)], history + [response])
  {
  }

  /** Replaying a prefix does not look past it. */
  lemma ReplayPrefixExtends(goal: string, containerName: Option<string>, run: ProcessRequest -> ProcessOutcome,
                            history: seq<string>, response: string, n: nat)
    requires n <= |history|
    ensures ReplayPrefix(goal, containerName, run, history + [response], n) == ReplayPrefix(goal, containerName, run, history, n)
  {
    assert (history + [response])[..n] == history[..n];
  }

  lemma SnapshotsExtend(goal: string, containerName: Option<string>, run: ProcessRequest -> ProcessOutcome,
                        snapshots: seq<StateSnapshot>, history: seq<string>, response: string)
    requires SnapshotsMatch(goal, containerName, run, snapshots, history)
    ensures SnapshotsMatch(goal, containerName, run, snapshots, history + [response])
  {
    forall k | 0 <= k < |snapshots|
      ensures snapshots[k] == Snapshot(ReplayPrefix(goal, containerName, run, history + [response], k + 1))
    {
      ReplayPrefixExtends(goal, containerName, run, history, response, k + 1);
    }
  }

  lemma SnapshotStep(goal: string, containerName: Option<string>, run: ProcessRequest -> ProcessOutcome,
                     snapshots: seq<StateSnapshot>, history: seq<string>, response: string, next: ContextState)
    requires SnapshotsMatch(goal, containerName, run, snapshots, history) && |snapshots| == |history|
    requires next == ReplayPrefix(goal, containerName, run, history + [response], |history| + 1)
    ensures SnapshotsMatch(goal, containerName, run, snapshots + [Snapshot(next)], history + [response])
  {
    SnapshotsExtend(goal, containerName, run, snapshots, history, response);
  }

  lemma NoneCompleteStep(containerName: Option<string>, run: ProcessRequest -> ProcessOutcome,
                         history: seq<string>, response: string)
    requires NoneComplete(containerName, run, history, |history|)
    requires !IsExecutionComplete(response, Extracted(response, containerName, run))
    ensures NoneComplete(containerName, run, history + [response], |history| + 1)
  {
  }

  lemma NoneCompleteExtends(containerName: Option<string>, run: ProcessRequest -> ProcessOutcome,
                            history: seq<string>, response: string, n: nat)
    requires NoneComplete(containerName, run, history, n)
    ensures NoneComplete(containerName, run, history + [response], n)
  {
  }

  /** One iteration that does not complete keeps the state consistent. */
  lemma StepConsistent(goal: string, containerName: Option<string>, llm: PromptView -> string,
                       run: ProcessRequest -> ProcessOutcome,
                       iteration: nat, c: ContextState, log: seq<LogEntry>, snapshots: seq<StateSnapshot>, response: string)
    requires iteration < MaxIterations
    requires Consistent(goal, containerName, llm, run, iteration, c, log, snapshots)
    requires response == llm(PromptFor(iteration + 1, c))
    requires !IsExecutionComplete(response, Extracted(response, containerName, run))
    ensures var next := Updated(c, response, Extracted(response, containerName, run));
      Consistent(goal, containerName, llm, run, iteration + 1, next,
                 log + [LogEntry(StepTitle(iteration + 1), response)], snapshots + [Snapshot(next)])
  {
    var next := Updated(c, response, Extracted(response, containerName, run));
    var history := c.history + [response];
    assert next.history == history && next.goal == goal && next.containerName == containerName;
    NextStep(goal, containerName, run, c, response);
    LogStep(log, c.history, response);
    SnapshotStep(goal, containerName, run, snapshots, c.history, response, next);
    NoneCompleteStep(containerName, run, c.history, response);
    AnswersStep(goal, containerName, llm, run, c.history, response);
    ConsistentIntro(goal, containerName, llm, run, iteration + 1, next,
                    log + [LogEntry(StepTitle(iteration + 1), response)], snapshots + [Snapshot(next)]);
  }

  /** The parts of `Consistent`, gathered. */
  lemma ConsistentIntro(goal: string, containerName: Option<string>, llm: PromptView -> string,
                        run: ProcessRequest -> ProcessOutcome,
                        iteration: nat, c: ContextState, log: seq<LogEntry>, snapshots: seq<StateSnapshot>)
    requires iteration <= MaxIterations && |c.history| == iteration && |snapshots| == iteration
    requires c.goal == goal && c.containerName == containerName
    requires c == ReplayPrefix(goal, containerName, run, c.history, |c.history|)
    requires LogMatches(log, c.history)
    requires SnapshotsMatch(goal, containerName, run, snapshots, c.history)
    requires NoneComplete(containerName, run, c.history, |c.history|)
    requires Answers(goal, containerName, llm, run, c.history)
    ensures Consistent(goal, containerName, llm, run, iteration, c, log, snapshots)
  {
  }

  /** The iteration that completes leaves a settled outcome. */
  lemma FinalStepSettles(goal: string, containerName: Option<string>, llm: PromptView -> string,
                         run: ProcessRequest -> ProcessOutcome,
                         iteration: nat, c: ContextState, log: seq<LogEntry>, snapshots: seq<StateSnapshot>, response: string)
    requires iteration < MaxIterations
    requires Consistent(goal, containerName, llm, run, iteration, c, log, snapshots)
    requires response == llm(PromptFor(iteration + 1, c))
    requires IsExecutionComplete(response, Extracted(response, containerName, run))
    ensures var next := Updated(c, response, Extracted(response, containerName, run));
      Settled(goal, containerName, llm, run,
              RunOutcome(iteration + 1, true, next, log + [LogEntry(StepTitle(iteration + 1), response)], snapshots))
  {
    NextStep(goal, containerName, run, c, response);
    LogStep(log, c.history, response);
    SnapshotsExtend(goal, containerName, run, snapshots, c.history, response);
    NoneCompleteExtends(containerName, run, c.history, response, iteration);
    AnswersStep(goal, containerName, llm, run, c.history, response);
  }

  /** One iteration of `RunFrom`, unfolded. */
  lemma RunStep(llm: PromptView -> string, run: ProcessRequest -> ProcessOutcome,
                iteration: nat, c: ContextState, log: seq<LogEntry>, snapshots: seq<StateSnapshot>)
    requires iteration < MaxIterations
    ensures var response := llm(PromptFor(iteration + 1, c));
      var results := Extracted(response, c.containerName, run);
      var next := Updated(c, response, results);
      var nextLog := log + [LogEntry(StepTitle(iteration + 1), response)];
      RunFrom(llm, run, iteration, c, log, snapshots) ==
        if IsExecutionComplete(response, results) then RunOutcome(iteration + 1, true, next, nextLog, snapshots)
        else RunFrom(llm, run, iteration + 1, next, nextLog, snapshots + [Snapshot(next)])
  {
  }

  /** From a consistent state, the rest of the loop ends settled. */
  lemma {:induction false} RunFromSettles(goal: string, containerName: Option<string>, llm: PromptView -> string,
                                          run: ProcessRequest -> ProcessOutcome,
                                          iteration: nat, c: ContextState, log: seq<LogEntry>, snapshots: seq<StateSnapshot>)
    requires Consistent(goal, containerName, llm, run, iteration, c, log, snapshots)
    requires iteration < MaxIterations
    ensures Settled(goal, containerName, llm, run, RunFrom(llm, run, iteration, c, log, snapshots))
    decreases MaxIterations - iteration
  {
    var response := llm(PromptFor(iteration + 1, c));
    var next := Updated(c, response, Extracted(response, containerName, run));
    var nextLog := log + [LogEntry(StepTitle(iteration + 1), response)];
    RunStep(llm, run, iteration, c, log, snapshots);
    if IsExecutionComplete(response, Extracted(response, containerName, run)) {
      FinalStepSettles(goal, containerName, llm, run, iteration, c, log, snapshots, response);
    } else {
      StepConsistent(goal, containerName, llm, run, iteration, c, log, snapshots, response);
      if iteration + 1 < MaxIterations {
        RunFromSettles(goal, containerName, llm, run, iteration + 1, next, nextLog, snapshots + [Snapshot(next)]);
      }
    }
  }

  /**
   * What a run leaves, whatever the model answers: between one and ten
   * iterations, each response the model's answer to the prompt built from
   * its iteration number and the context before it, one log section and one
   * history entry per iteration headed with its number, a context that is
   * the replay of the responses and of the results each produced, one state
   * snapshot per iteration that did not complete (taken after that
   * iteration), and a stop at the first response that completes, or after
   * ten iterations when none does.
   */
  lemma RunSettles(goal: string, containerName: Option<string>, llm: PromptView -> string, run: ProcessRequest -> ProcessOutcome)
    ensures Settled(goal, containerName, llm, run, Run(goal, containerName, llm, run))
  {
    assert Initial(goal, containerName) == ReplayPrefix(goal, containerName, run, [], 0);
    RunFromSettles(goal, containerName, llm, run, 0, Initial(goal, containerName), [], []);
  }

  /** The budget runs out exactly when none of the ten responses completes the run. */
  lemma ExhaustedMeansNoCompletion(goal: string, containerName: Option<string>, llm: PromptView -> string,
                                   run: ProcessRequest -> ProcessOutcome)
    ensures var o := Run(goal, containerName, llm, run);
      Exhausted(o) <==> o.iterations == MaxIterations && NoneComplete(containerName, run, o.context.history, o.iterations)
  {
    var o := Run(goal, containerName, llm, run);
    RunSettles(goal, containerName, llm, run);
    if o.completed {
      var last := o.context.history[o.iterations - 1];
      assert IsExecutionComplete(last, Extracted(last, containerName, run));
      assert !NoneComplete(containerName, run, o.context.history, o.iterations);
    }
  }

  /**
   * As written, the warning after the loop tests the counter alone
   * (`iteration >= max_iterations`), not whether the loop broke out.
   */
  predicate MaxIterationsReported(outcome: RunOutcome)
  {
    outcome.iterations >= MaxIterations
  }

  /** The warning is issued for every exhausted run, and also for a run completed at the tenth iteration. */
  lemma ReportedIffExhaustedOrLast(goal: string, containerName: Option<string>, llm: PromptView -> string,
                                   run: ProcessRequest -> ProcessOutcome)
    ensures var o := Run(goal, containerName, llm, run);
      MaxIterationsReported(o) <==> Exhausted(o) || o.iterations == MaxIterations
  {
    RunSettles(goal, containerName, llm, run);
  }

  /** A model that stays silent until the tenth prompt and then answers "done". */
  function LateFinisher(view: PromptView): string
  {
    if view.iteration == MaxIterations then "done" else ""
  }

  /** An empty reply calls no tool and does not complete the run. */
  lemma SilentStep(containerName: Option<string>, run: ProcessRequest -> ProcessOutcome)
    ensures Extracted("", containerName, run) == []
    ensures !IsExecutionComplete("", [])
  {
    assert Split("", '\n') == [""];
    assert !StartsWith("", ToolCallMarker);
    assert ExtractFrom([""], 0, ExecuteIn(containerName, run)) == ExtractFrom([""], 1, ExecuteIn(containerName, run));
    assert Lower("") == "";
    forall k | 0 <= k < |CompletionPhrases|
      ensures !Contains("", CompletionPhrases[k])
    {
      assert |CompletionPhrases[k]| > 0;
    }
  }

  /** Before the tenth prompt, the late finisher's iteration is silent and the loop goes on. */
  lemma SilentIteration(run: ProcessRequest -> ProcessOutcome,
                        iteration: nat, c: ContextState, log: seq<LogEntry>, snapshots: seq<StateSnapshot>)
    requires iteration + 1 < MaxIterations
    ensures var next := Updated(c, "", []);
      RunFrom(LateFinisher, run, iteration, c, log, snapshots) ==
        RunFrom(LateFinisher, run, iteration + 1, next,
                log + [LogEntry(StepTitle(iteration + 1), "")], snapshots + [Snapshot(next)])
  {
    assert LateFinisher(PromptFor(iteration + 1, c)) == "";
    SilentStep(c.containerName, run);
    RunStep(LateFinisher, run, iteration, c, log, snapshots);
  }

  /** At the tenth prompt, the late finisher's "done" completes the loop. */
  lemma FinishingIteration(run: ProcessRequest -> ProcessOutcome,
                           c: ContextState, log: seq<LogEntry>, snapshots: seq<StateSnapshot>)
    ensures RunFrom(LateFinisher, run, MaxIterations - 1, c, log, snapshots).completed
    ensures RunFrom(LateFinisher, run, MaxIterations - 1, c, log, snapshots).iterations == MaxIterations
  {
    assert LateFinisher(PromptFor(MaxIterations, c)) == "done";
    DoneCompletes(Extracted("done", c.containerName, run));
    RunStep(LateFinisher, run, MaxIterations - 1, c, log, snapshots);
  }

  /** Silent iterations carry the loop up to the tenth, where "done" completes it. */
  lemma {:induction false} LateFinisherRun(run: ProcessRequest -> ProcessOutcome,
                                          iteration: nat, c: ContextState, log: seq<LogEntry>, snapshots: seq<StateSnapshot>)
    requires iteration < MaxIterations
    ensures RunFrom(LateFinisher, run, iteration, c, log, snapshots).completed
    ensures RunFrom(LateFinisher, run, iteration, c, log, snapshots).iterations == MaxIterations
    decreases MaxIterations - iteration
  {
    if iteration + 1 < MaxIterations {
      var next := Updated(c, "", []);
      SilentIteration(run, iteration, c, log, snapshots);
      LateFinisherRun(run, iteration + 1, next,
                      log + [LogEntry(StepTitle(iteration + 1), "")], snapshots + [Snapshot(next)]);
    } else {
      FinishingIteration(run, c, log, snapshots);
    }
  }

  /** "done" alone completes the run, whatever the results. */
  lemma DoneCompletes(results: seq<ToolResult>)
    ensures IsExecutionComplete("done", results)
  {
    LowerOfLowercase("done");
    ContainsAt("done", "done", 0);
    assert Contains(Lower("done"), CompletionPhrases[5]);
  }

  /**
   * The finding: a run that completes at the tenth iteration is still
   * reported as having reached the maximum, although it is not exhausted.
   */
  lemma LateCompletionReportedAsMaximum(goal: string, containerName: Option<string>, run: ProcessRequest -> ProcessOutcome)
    ensures Run(goal, containerName, LateFinisher, run).completed
    ensures MaxIterationsReported(Run(goal, containerName, LateFinisher, run))
    ensures !Exhausted(Run(goal, containerName, LateFinisher, run))
  {
    LateFinisherRun(run, 0, Initial(goal, containerName), [], []);
  }
}
