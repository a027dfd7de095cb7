/**
 * `_is_execution_complete` (llm_interpreter.py:688-701): the loop stops
 * when the lowered response contains a completion phrase, or when the last
 * results of the step all succeeded and the response mentions a summary.
 */
module Completion {
  import opened Text
  import opened Executor
  import opened Context

  const CompletionPhrases: seq<string> :=
    ["task completed", "execution complete", "goal achieved", "summary saved", "process finished", "done"]

  /** How many of the step's latest results the success check looks at (`tool_results[-3:]`). */
  const RecentWindow: nat := 3

  /** `any(indicator in lowered for indicator in completion_indicators)`. */
  predicate HasCompletionText(lowered: string)
  {
    exists k :: 0 <= k < |CompletionPhrases| && Contains(lowered, CompletionPhrases[k])
  }

  /** `len(results) > 0 and all(r['success'] for r in results[-3:])`. */
  predicate RecentSuccess(results: seq<ToolResult>)
  {
    |results| > 0 && AllSucceeded(LastN(results, RecentWindow))
  }

  predicate IsExecutionComplete(response: string, results: seq<ToolResult>)
  {
    var lowered := Lower(response);
    HasCompletionText(lowered) || (RecentSuccess(results) && Contains(lowered, "summary"))
  }

  /**
   * The result condition by position: there is a result, and each of the
   * (at most three) last ones succeeded.
   */
  lemma RecentSuccessByIndex(results: seq<ToolResult>)
    ensures RecentSuccess(results) <==>
      |results| > 0 && forall k :: 0 <= k < |results| && |results| - k <= RecentWindow ==> results[k].success
  {
    var window := LastN(results, RecentWindow);
    var offset := |results| - |window|;
    if |results| > 0 && AllSucceeded(window) {
      forall k | 0 <= k < |results| && |results| - k <= RecentWindow
        ensures results[k].success
      {
        assert window[k - offset] == results[k];
      }
    }
    if |results| > 0 && forall k :: 0 <= k < |results| && |results| - k <= RecentWindow ==> results[k].success {
      forall j | 0 <= j < |window|
        ensures window[j].success
      {
        assert window[j] == results[offset + j];
      }
    }
  }

  /** A failure among the last three results leaves completion to the phrases alone. */
  lemma RecentFailureNeedsPhrase(response: string, results: seq<ToolResult>, k: nat)
    requires k < |results| && |results| - k <= RecentWindow && !results[k].success
    ensures IsExecutionComplete(response, results) <==> HasCompletionText(Lower(response))
  {
    RecentSuccessByIndex(results);
  }

  /** Any completion phrase, in any letter case, completes the run whatever the results. */
  lemma PhraseCompletes(response: string, results: seq<ToolResult>, k: nat, i: nat)
    requires k < |CompletionPhrases|
    requires i + |CompletionPhrases[k]| <= |Lower(response)|
    requires Lower(response)[i..i + |CompletionPhrases[k]|] == CompletionPhrases[k]
    ensures IsExecutionComplete(response, results)
  {
    ContainsAt(Lower(response), CompletionPhrases[k], i);
  }

  /** The check is case-insensitive: lowering the response first changes nothing. */
  lemma CaseInsensitive(response: string, results: seq<ToolResult>)
    ensures IsExecutionComplete(Lower(response), results) == IsExecutionComplete(response, results)
  {
    LowerIdempotent(response);
  }

  /** Only the last three results of the step matter; earlier ones, failed or not, are ignored. */
  lemma OnlyRecentResultsCount(response: string, older: seq<ToolResult>, recent: seq<ToolResult>)
    requires |recent| >= RecentWindow
    ensures IsExecutionComplete(response, older + recent) == IsExecutionComplete(response, recent)
  {
    LastNOfAppend(older, recent, RecentWindow);
  }

  /** Without a completion phrase, a step with no results never completes the run. */
  lemma NoResultsNeedsPhrase(response: string)
    ensures IsExecutionComplete(response, []) <==> HasCompletionText(Lower(response))
  {
  }

  /** Text added after or before a completing response keeps it completing. */
  lemma CompletionSurvivesAppend(response: string, extra: string, results: seq<ToolResult>)
    requires IsExecutionComplete(response, results)
    ensures IsExecutionComplete(response + extra, results)
    ensures IsExecutionComplete(extra + response, results)
  {
    LowerConcat(response, extra);
    LowerConcat(extra, response);
    var lowered := Lower(response);
    ContainsAppend(lowered, Lower(extra), "summary");
    ContainsPrepend(Lower(extra), lowered, "summary");
    if HasCompletionText(lowered) {
      var k :| 0 <= k < |CompletionPhrases| && Contains(lowered, CompletionPhrases[k]);
      ContainsAppend(lowered, Lower(extra), CompletionPhrases[k]);
      ContainsPrepend(Lower(extra), lowered, CompletionPhrases[k]);
    }
  }

  /**
   * The phrase match is a plain substring test: a response saying the work
   * was "abandoned" contains "done" and ends the run.
   */
  lemma AbandonedCountsAsDone(results: seq<ToolResult>)
    ensures IsExecutionComplete("abandoned", results)
  {
    var word := "abandoned";
    DoneInside(word);
    PhraseCompletes(word, results, 5, 4);
  }

  /** "abandoned" is already lower-case and holds "done" at position 4. */
  lemma DoneInside(word: string)
    requires word == "abandoned"
    ensures |Lower(word)| == 9 && Lower(word)[4..8] == CompletionPhrases[5]
  {
    LowerOfLowercase(word);
    assert word[4..8] == "done";
  }
}
