/**
 * The two context sections of the iteration prompt:
 * `_format_execution_history` (llm_interpreter.py:730-739) and
 * `_format_tool_results` (llm_interpreter.py:741-751). Each shows a window
 * of the latest entries, each entry cut to a preview.
 */
module Formatting {
  import opened Text
  import opened Executor

  const HistoryWindow: nat := 3
  const ResultsWindow: nat := 5
  const ResponsePreview: nat := 200
  const OutputPreview: nat := 100

  const NoHistory := "No previous execution steps"
  const NoResults := "No tool executions yet"

  const SuccessMark := "\U{2705}"   // WHITE HEAVY CHECK MARK
  const FailureMark := "\U{274C}"   // CROSS MARK

  /** `f"Step {number}: {response[:200]}..."`. */
  function StepLine(number: nat, response: string): string
  {
    "Step " + NatToString(number) + ": " + Take(response, ResponsePreview) + "..."
  }

  /** The step lines of a window, numbered from 1. */
  function StepLines(window: seq<string>): (lines: seq<string>)
    ensures |lines| == |window|
    decreases |window|
  {
    if |window| == 0 then []
    else StepLines(window[..|window| - 1]) + [StepLine(|window|, window[|window| - 1])]
  }

  /** The history section of the prompt. */
  function ExecutionHistoryText(history: seq<string>): string
  {
    if |history| == 0 then NoHistory
    else Join(StepLines(LastN(history, HistoryWindow)), "\n")
  }

  /** `_format_execution_history`: number the last three responses and join them. */
  method FormatExecutionHistory(history: seq<string>) returns (text: string)
    ensures text == ExecutionHistoryText(history)
  {
    if |history| == 0 {
      return NoHistory;
    }
    var window := LastN(history, HistoryWindow);
    var formatted: seq<string> := [];
    var i := 0;
    while i < |window|
      invariant 0 <= i <= |window|
      invariant formatted == StepLines(window[..i])
    {
      assert window[..i + 1][..i] == window[..i];
      formatted := formatted + [StepLine(i + 1, window[i])];
      i := i + 1;
    }
    assert window[..i] == window;
    text := Join(formatted, "\n");
  }

  /** The `k`-th line of a window shows step `k + 1` and its response cut to the preview. */
  lemma {:induction false} StepLinesAt(window: seq<string>, k: nat)
    requires k < |window|
    ensures StepLines(window)[k] == StepLine(k + 1, window[k])
    decreases |window|
  {
    if k < |window| - 1 {
      StepLinesAt(window[..|window| - 1], k);
    }
  }

  /** `f"{status} {tool}: {output[:100]}..."` with a check mark or a cross. */
  function ResultLine(result: ToolResult): string
  {
    (if result.success then SuccessMark else FailureMark) + " " + result.tool + ": " + Take(result.output, OutputPreview) + "..."
  }

  function ResultLines(window: seq<ToolResult>): (lines: seq<string>)
    ensures |lines| == |window|
    decreases |window|
  {
    if |window| == 0 then []
    else ResultLines(window[..|window| - 1]) + [ResultLine(window[|window| - 1])]
  }

  /** The results section of the prompt. */
  function ToolResultsText(results: seq<ToolResult>): string
  {
    if |results| == 0 then NoResults
    else Join(ResultLines(LastN(results, ResultsWindow)), "\n")
  }

  /** `_format_tool_results`: one marked line for each of the last five results. */
  method FormatToolResults(results: seq<ToolResult>) returns (text: string)
    ensures text == ToolResultsText(results)
  {
    if |results| == 0 {
      return NoResults;
    }
    var window := LastN(results, ResultsWindow);
    var formatted: seq<string> := [];
    var i := 0;
    while i < |window|
      invariant 0 <= i <= |window|
      invariant formatted == ResultLines(window[..i])
    {
      assert window[..i + 1][..i] == window[..i];
      formatted := formatted + [ResultLine(window[i])];
      i := i + 1;
    }
    assert window[..i] == window;
    text := Join(formatted, "\n");
  }

  /** The `k`-th line of a window is that result's line. */
  lemma {:induction false} ResultLinesAt(window: seq<ToolResult>, k: nat)
    requires k < |window|
    ensures ResultLines(window)[k] == ResultLine(window[k])
    decreases |window|
  {
    if k < |window| - 1 {
      ResultLinesAt(window[..|window| - 1], k);
    }
  }

  /** A result line starts with the check mark exactly when the result succeeded. */
  lemma ResultMark(result: ToolResult)
    ensures ResultLine(result)[0] == SuccessMark[0] <==> result.success
  {
  }

  /** The placeholder appears exactly when there is no history. */
  lemma HistoryPlaceholder(history: seq<string>)
    ensures ExecutionHistoryText(history) == NoHistory <==> |history| == 0
  {
    if |history| > 0 {
      var lines := StepLines(LastN(history, HistoryWindow));
      StepLinesAt(LastN(history, HistoryWindow), 0);
      assert lines[0][0] == 'S';
      JoinFirst(lines, "\n");
      assert ExecutionHistoryText(history)[0] != NoHistory[0];
    }
  }

  /** The placeholder appears exactly when there are no results. */
  lemma ResultsPlaceholder(results: seq<ToolResult>)
    ensures ToolResultsText(results) == NoResults <==> |results| == 0
  {
    if |results| > 0 {
      var lines := ResultLines(LastN(results, ResultsWindow));
      ResultLinesAt(LastN(results, ResultsWindow), 0);
      assert lines[0][0] == SuccessMark[0] || lines[0][0] == FailureMark[0];
      JoinFirst(lines, "\n");
      assert ToolResultsText(results)[0] != NoResults[0];
    }
  }

  /** Only the last three responses are shown: older history does not change the section. */
  lemma HistoryWindowOnly(older: seq<string>, recent: seq<string>)
    requires |recent| >= HistoryWindow
    ensures ExecutionHistoryText(older + recent) == ExecutionHistoryText(recent)
  {
    LastNOfAppend(older, recent, HistoryWindow);
    assert |older + recent| > 0 && |recent| > 0;
  }

  /** Only the last five results are shown: older results do not change the section. */
  lemma ResultsWindowOnly(older: seq<ToolResult>, recent: seq<ToolResult>)
    requires |recent| >= ResultsWindow
    ensures ToolResultsText(older + recent) == ToolResultsText(recent)
  {
    LastNOfAppend(older, recent, ResultsWindow);
    assert |older + recent| > 0 && |recent| > 0;
  }

  /** However long the history and its responses, the history section has at most 636 characters. */
  lemma HistoryTextBounded(history: seq<string>)
    ensures |ExecutionHistoryText(history)| <= 3 * 212
  {
    if |history| > 0 {
      var window := LastN(history, HistoryWindow);
      var lines := StepLines(window);
      forall k | 0 <= k < |lines|
        ensures |lines[k]| <= 211
      {
        StepLinesAt(window, k);
        assert |NatToString(k + 1)| == 1;
      }
      JoinBound(lines, "\n", 211);
    }
  }
}
